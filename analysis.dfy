/** The order analysis used by the prediction view: SKU normalisation,
    packaging of grouped orders, the per-month history and the three-month
    forecast. */
module Analysis {
  import opened Common
  import opened Text
  import opened Dates

  // ---------------------------------------------------------------------
  // SKU normalisation
  // ---------------------------------------------------------------------

  /** A SKU reduced to its base, with the line quantity scaled by its pack size. */
  datatype Normalised = Normalised(baseSku: string, totalQuantity: int)

  /** `parseInt(s)` where NaN contributes nothing. */
  function ParsedOrZero(s: string): int {
    match ParseInt(s)
    case Some(n) => n
    case None => 0
  }

  /** The pieces' numbers added up, pieces that are not numbers skipped. */
  function PartsSum(parts: seq<string>): int {
    if |parts| == 0 then 0 else PartsSum(parts[..|parts| - 1]) + ParsedOrZero(parts[|parts| - 1])
  }

  /** The pack size a SKU names: the sum of the numbers after its first `_`. */
  function Multiplier(sku: string): int {
    PartsSum(Split(sku, "_")[1..])
  }

  /** The SKU is left as it is: a sachet or half product, no `_`, or no
      positive pack size after it. */
  predicate KeepsSku(sku: string) {
    Includes(sku, "sachet") || Includes(sku, "half") || '_' !in sku || Multiplier(sku) <= 0
  }

  /** What normalising a line yields, as a function of the SKU and quantity. */
  function SkuQuantity(sku: string, quantity: int): Normalised {
    if KeepsSku(sku) then Normalised(sku, quantity)
    else Normalised(Split(sku, "_")[0], quantity * Multiplier(sku))
  }

  /** `parseSkuQuantity`: the pack size is summed piece by piece. A kept
      SKU comes back unchanged; otherwise the base is the text before the
      first `_` and the quantity is multiplied by the pack size. */
  method ParseSkuQuantity(sku: string, quantity: int) returns (r: Normalised)
    ensures KeepsSku(sku) ==> r == Normalised(sku, quantity)
    ensures !KeepsSku(sku) ==>
              && StartsWith(sku, r.baseSku + "_") && '_' !in r.baseSku
              && r.totalQuantity == quantity * Multiplier(sku)
    ensures r == SkuQuantity(sku, quantity)
  {
    SkuQuantityShape(sku, quantity);
    if Includes(sku, "sachet") || Includes(sku, "half") {
      return Normalised(sku, quantity);
    }
    var parts := Split(sku, "_");
    var basePart := parts[0];
    SplitSingle(sku, '_');
    if |parts| == 1 {
      return Normalised(sku, quantity);
    }
    var multiplier := SumPackParts(parts);
    if multiplier > 0 {
      return Normalised(basePart, quantity * multiplier);
    }
    return Normalised(sku, quantity);
  }

  /** The loop of `parseSkuQuantity` over the pieces after the first,
      adding up those that parse as numbers. */
  method SumPackParts(parts: seq<string>) returns (multiplier: int)
    requires |parts| >= 1
    ensures multiplier == PartsSum(parts[1..])
  {
    multiplier := 0;
    for i := 1 to |parts|
      invariant multiplier == PartsSum(parts[1..i])
    {
      assert parts[1..i + 1][..i - 1] == parts[1..i];
      match ParseInt(parts[i])
      case Some(num) => multiplier := multiplier + num;
      case None =>
    }
    assert parts[1..|parts|] == parts[1..];
  }

  /** The two outcomes of normalising, stated outright. */
  lemma SkuQuantityShape(sku: string, quantity: int)
    ensures KeepsSku(sku) ==> SkuQuantity(sku, quantity) == Normalised(sku, quantity)
    ensures !KeepsSku(sku) ==>
              var r := SkuQuantity(sku, quantity);
              && StartsWith(sku, r.baseSku + "_") && '_' !in r.baseSku
              && r.totalQuantity == quantity * Multiplier(sku)
  {
    if !KeepsSku(sku) {
      SplitHead(sku, '_');
    }
  }

  /** Normalising twice changes nothing: a base SKU has no `_` left. */
  lemma SkuQuantityIdempotent(sku: string, quantity: int)
    ensures var r := SkuQuantity(sku, quantity);
            SkuQuantity(r.baseSku, r.totalQuantity) == r
  {
    if !KeepsSku(sku) {
      SplitHead(sku, '_');
    }
  }

  /** A two-pack of three plus two: `NB-ADV_3_2` ordered once counts as five
      `NB-ADV`. */
  lemma SkuQuantityExample()
    ensures SkuQuantity("NB-ADV_3_2", 1) == Normalised("NB-ADV", 5)
  {
    ExampleParts();
    ExampleMultiplier();
    ExampleNotKept();
  }

  lemma ExampleMultiplier()
    ensures Multiplier("NB-ADV_3_2") == 5
  {
    ExampleParts();
    PartsSumPair("3", "2");
    ParseIntDigit('3');
    ParseIntDigit('2');
  }

  lemma PartsSumPair(a: string, b: string)
    ensures PartsSum([a, b]) == ParsedOrZero(a) + ParsedOrZero(b)
  {
    assert [a, b][..1] == [a];
    assert [a][..0] == [];
    assert PartsSum([a]) == ParsedOrZero(a);
  }

  lemma ExampleNotKept()
    ensures !Includes("NB-ADV_3_2", "sachet") && !Includes("NB-ADV_3_2", "half")
    ensures '_' in "NB-ADV_3_2"
  {
    NotIncludes("NB-ADV_3_2", "sachet");
    NotIncludes("NB-ADV_3_2", "half");
    assert "NB-ADV_3_2"[6] == '_';
    assert "NB-ADV_3_2"[6] in "NB-ADV_3_2";
  }

  lemma ExampleParts()
    ensures Split("NB-ADV_3_2", "_") == ["NB-ADV", "3", "2"]
  {
    SplitSingle("2", '_');
    SplitAt("3", '_', "2");
    SplitAt("NB-ADV", '_', "3_2");
    assert "3" + "_" + "2" == "3_2";
    assert "NB-ADV" + "_" + "3_2" == "NB-ADV_3_2";
  }

  // ---------------------------------------------------------------------
  // Packaging
  // ---------------------------------------------------------------------

  datatype Packaging = Packaging(envelopes: nat, sixMonthBoxes: nat, twelveMonthBoxes: nat)

  datatype OrderSizes = OrderSizes(small: nat, medium: nat, large: nat)

  /** The three sizes of container an order ships in. */
  datatype Box = Envelope | SixMonthBox | TwelveMonthBox

  /** A bottle SKU, which needs the largest box. */
  predicate IsBottle(sku: string) {
    StartsWith(sku, "nb-btl") || StartsWith(sku, "nb-bt-")
  }

  /** `items.some(...)` over the bottle test. */
  function HasBottle(items: seq<Order>): (b: bool)
    ensures b <==> exists i :: 0 <= i < |items| && IsBottle(items[i].sku)
  {
    if |items| == 0 then false
    else
      var b := HasBottle(items[..|items| - 1]) || IsBottle(items[|items| - 1].sku);
      assert forall i :: 0 <= i < |items| - 1 ==> items[..|items| - 1][i] == items[i];
      b
  }

  /** The box an order needs: any bottle or nine items or more take a
      twelve-month box, five or more a six-month box, fewer an envelope. */
  function BoxFor(items: seq<Order>): (b: Box)
    ensures b == TwelveMonthBox <==> HasBottle(items) || SumQuantity(items) >= 9
    ensures b == SixMonthBox <==> !HasBottle(items) && 5 <= SumQuantity(items) < 9
    ensures b == Envelope <==> !HasBottle(items) && SumQuantity(items) < 5
  {
    var total := SumQuantity(items);
    if HasBottle(items) || total >= 9 then TwelveMonthBox
    else if total >= 5 then SixMonthBox
    else Envelope
  }

  /** How many of the orders `ks` of `data` need a box of size `b`. */
  function CountBoxes(data: seq<Order>, ks: seq<string>, b: Box): nat {
    if |ks| == 0 then 0
    else
      CountBoxes(data, ks[..|ks| - 1], b)
        + (if BoxFor(LinesWith(data, OrderNumberOf, ks[|ks| - 1])) == b then 1 else 0)
  }

  /** One more order counts towards the size of box it needs. */
  lemma BoxesStep(data: seq<Order>, ks: seq<string>, j: int, items: seq<Order>)
    requires 0 <= j < |ks| && items == LinesWith(data, OrderNumberOf, ks[j])
    ensures BoxesOf(data, ks[..j + 1]) == WithBox(BoxesOf(data, ks[..j]), BoxFor(items))
  {
    assert ks[..j + 1][..j] == ks[..j];
  }

  /** A packaging with one more box of size `b`. */
  function WithBox(p: Packaging, b: Box): Packaging {
    match b
    case Envelope => p.(envelopes := p.envelopes + 1)
    case SixMonthBox => p.(sixMonthBoxes := p.sixMonthBoxes + 1)
    case TwelveMonthBox => p.(twelveMonthBoxes := p.twelveMonthBoxes + 1)
  }

  /** Every order takes exactly one box. */
  lemma {:induction false} CountBoxesSum(data: seq<Order>, ks: seq<string>)
    ensures CountBoxes(data, ks, Envelope) + CountBoxes(data, ks, SixMonthBox)
            + CountBoxes(data, ks, TwelveMonthBox) == |ks|
  {
    if |ks| > 0 {
      CountBoxesSum(data, ks[..|ks| - 1]);
    }
  }

  /** The boxes the orders `ks` of `data` need, counted by size. */
  function BoxesOf(data: seq<Order>, ks: seq<string>): Packaging {
    Packaging(CountBoxes(data, ks, Envelope), CountBoxes(data, ks, SixMonthBox),
              CountBoxes(data, ks, TwelveMonthBox))
  }

  /** The boxes the orders of some lines need, counted by size. */
  function PackagingOf(data: seq<Order>): Packaging {
    BoxesOf(data, DistinctKeys(data, OrderNumberOf))
  }

  /** How many of the lines `sim`, each taken as an order of its own, need
      a box of size `b`. */
  function CountLineBoxes(sim: seq<Order>, b: Box): nat {
    if |sim| == 0 then 0
    else CountLineBoxes(sim[..|sim| - 1], b) + (if BoxFor([sim[|sim| - 1]]) == b then 1 else 0)
  }

  /** The boxes the lines `sim` need when each line is an order of its own. */
  function LinePackaging(sim: seq<Order>): Packaging {
    Packaging(CountLineBoxes(sim, Envelope), CountLineBoxes(sim, SixMonthBox),
              CountLineBoxes(sim, TwelveMonthBox))
  }

  lemma {:induction false} CountBoxesOneLine(sim: seq<Order>, m: nat, b: Box)
    requires forall i, j :: 0 <= i < |sim| && 0 <= j < |sim| && i != j ==> sim[i].orderNumber != sim[j].orderNumber
    requires m <= |sim|
    ensures CountBoxes(sim, Keys(sim, OrderNumberOf)[..m], b) == CountLineBoxes(sim[..m], b)
  {
    if m > 0 {
      var ks := Keys(sim, OrderNumberOf);
      CountBoxesOneLine(sim, m - 1, b);
      assert ks[..m][..m - 1] == ks[..m - 1];
      assert sim[..m][..m - 1] == sim[..m - 1];
      LinesWithUnique(sim, OrderNumberOf, m - 1);
    }
  }

  /** Lines with pairwise different order numbers are one order each, and
      each is boxed by its own line. */
  lemma OneLineOrdersPackaging(sim: seq<Order>)
    requires forall i, j :: 0 <= i < |sim| && 0 <= j < |sim| && i != j ==> sim[i].orderNumber != sim[j].orderNumber
    ensures PackagingOf(sim) == LinePackaging(sim)
  {
    var ks := Keys(sim, OrderNumberOf);
    assert NoDups(ks);
    DedupNoDups(ks);
    assert ks[..|sim|] == ks && sim[..|sim|] == sim;
    CountBoxesOneLine(sim, |sim|, Envelope);
    CountBoxesOneLine(sim, |sim|, SixMonthBox);
    CountBoxesOneLine(sim, |sim|, TwelveMonthBox);
  }

  /** One-line orders of bottle SKUs all take twelve-month boxes. */
  lemma {:induction false} BottleLineBoxes(sim: seq<Order>)
    requires forall j :: 0 <= j < |sim| ==> IsBottle(sim[j].sku)
    ensures LinePackaging(sim) == Packaging(0, 0, |sim|)
  {
    if |sim| > 0 {
      var x := sim[|sim| - 1];
      BottleLineBoxes(sim[..|sim| - 1]);
      assert IsBottle([x][0].sku);
    }
  }

  /** The order sizes reported beside a packaging: the same three counts. */
  function SizesOf(p: Packaging): OrderSizes {
    OrderSizes(p.envelopes, p.sixMonthBoxes, p.twelveMonthBoxes)
  }

  /** `calculatePackaging`: the lines are grouped by order number and each
      group is classified once. Each distinct order is counted in exactly
      one of the three totals. */
  method CalculatePackaging(orders: seq<Order>) returns (p: Packaging)
    ensures p == PackagingOf(orders)
    ensures p.envelopes + p.sixMonthBoxes + p.twelveMonthBoxes
            == CountDistinct(orders, OrderNumberOf)
  {
    var groups := GroupBy(orders, OrderNumberOf);
    var ks := groups.keys;
    var envelopes, sixMonthBoxes, twelveMonthBoxes := 0, 0, 0;
    for j := 0 to |ks|
      invariant Packaging(envelopes, sixMonthBoxes, twelveMonthBoxes) == BoxesOf(orders, ks[..j])
    {
      assert ks[j] in groups.entries;
      var items := groups.entries[ks[j]];
      BoxesStep(orders, ks, j, items);
      envelopes, sixMonthBoxes, twelveMonthBoxes := PackOrder(items, envelopes, sixMonthBoxes, twelveMonthBoxes);
    }
    assert ks[..|ks|] == ks;
    p := Packaging(envelopes, sixMonthBoxes, twelveMonthBoxes);
    PackagingTotal(orders);
  }

  /** The classification of one order's lines, added to the running counts. */
  method PackOrder(items: seq<Order>, envelopes0: nat, sixMonthBoxes0: nat, twelveMonthBoxes0: nat)
    returns (envelopes: nat, sixMonthBoxes: nat, twelveMonthBoxes: nat)
    ensures Packaging(envelopes, sixMonthBoxes, twelveMonthBoxes)
            == WithBox(Packaging(envelopes0, sixMonthBoxes0, twelveMonthBoxes0), BoxFor(items))
  {
    envelopes, sixMonthBoxes, twelveMonthBoxes := envelopes0, sixMonthBoxes0, twelveMonthBoxes0;
    var totalItems := SumQuantity(items);
    var hasBottle := HasBottle(items);
    if hasBottle || totalItems >= 9 {
      twelveMonthBoxes := twelveMonthBoxes + 1;
    } else if totalItems >= 5 {
      sixMonthBoxes := sixMonthBoxes + 1;
    } else {
      envelopes := envelopes + 1;
    }
  }

  /** The three counts add up to the number of distinct order numbers. */
  lemma PackagingTotal(orders: seq<Order>)
    ensures var p := PackagingOf(orders);
            p.envelopes + p.sixMonthBoxes + p.twelveMonthBoxes
            == CountDistinct(orders, OrderNumberOf)
  {
    CountBoxesSum(orders, DistinctKeys(orders, OrderNumberOf));
  }

  // ---------------------------------------------------------------------
  // Monthly history
  // ---------------------------------------------------------------------

  /** A line with its SKU and quantity normalised (the spread of the line
      with `sku` and `quantity` replaced). */
  function Normalise(o: Order): Order {
    var n := SkuQuantity(o.sku, o.quantity);
    o.(sku := n.baseSku, quantity := n.totalQuantity)
  }

  /** Every line normalised, in order. */
  function NormaliseAll(orders: seq<Order>): (r: seq<Order>)
    ensures |r| == |orders|
    ensures forall i :: 0 <= i < |orders| ==> r[i] == Normalise(orders[i])
  {
    if |orders| == 0 then []
    else NormaliseAll(orders[..|orders| - 1]) + [Normalise(orders[|orders| - 1])]
  }

  /** The month a line is filed under, built from `getFullYear` and `getMonth`. */
  function OrderMonth(o: Order): string { JsMonthKey(o.date) }

  /** One month of history or forecast. */
  datatype Prediction = Prediction(month: string, skuPredictions: Record<int>,
                                   orderSizes: OrderSizes, packaging: Packaging,
                                   totalOrders: int)

  /** A SKU's total quantity among `lines` (zero for a SKU with no line there). */
  function SkuTotal(lines: seq<Order>): string -> int {
    sku => SumQuantity(LinesWith(lines, SkuOf, sku))
  }

  /** The per-SKU totals of one month, one assignment per SKU. */
  method SkuTotalsOf(lines: seq<Order>, skus: seq<string>) returns (r: Record<int>)
    ensures Tabulates(r, skus, SkuTotal(lines))
  {
    r := Record([], map[]);
    for j := 0 to |skus|
      invariant Tabulates(r, skus[..j], SkuTotal(lines))
    {
      var total := SumQuantity(LinesWith(lines, SkuOf, skus[j]));
      TabulatesStep(r, skus, j, SkuTotal(lines));
      r := Put(r, skus[j], total);
    }
    assert skus[..|skus|] == skus;
  }

  /** A history entry for `month` describes exactly the lines filed there. */
  ghost predicate Summarises(p: Prediction, month: string, lines: seq<Order>, skus: seq<string>) {
    && p.month == month
    && Tabulates(p.skuPredictions, skus, SkuTotal(lines))
    && p.packaging == PackagingOf(lines)
    && p.orderSizes == SizesOf(p.packaging)
    && p.totalOrders == CountDistinct(lines, OrderNumberOf)
  }

  /** The history entry of one month: its orders are counted once each,
      and every one of them is packed in exactly one box. */
  method SummariseMonth(month: string, lines: seq<Order>, skus: seq<string>) returns (p: Prediction)
    ensures Summarises(p, month, lines, skus)
    ensures p.packaging.envelopes + p.packaging.sixMonthBoxes + p.packaging.twelveMonthBoxes
            == p.totalOrders
  {
    var skuPredictions := SkuTotalsOf(lines, skus);
    var packaging := CalculatePackaging(lines);
    var totalOrders := CountDistinct(lines, OrderNumberOf);
    p := Prediction(month, skuPredictions, SizesOf(packaging), packaging, totalOrders);
  }

  /** `analyzeOrders`: the lines are normalised and filed by month, the SKUs
      are collected in first-appearance order, and the history lists every
      month in ascending order with that month's totals. */
  method AnalyzeOrders(orders: seq<Order>)
    returns (ordersByMonth: Record<seq<Order>>, uniqueSkus: seq<string>, historicalData: seq<Prediction>)
    ensures GroupedBy(ordersByMonth, NormaliseAll(orders), OrderMonth)
    ensures uniqueSkus == DistinctKeys(NormaliseAll(orders), SkuOf)
    ensures |historicalData| == |ordersByMonth.keys|
    ensures forall j :: 0 <= j < |historicalData| ==>
              historicalData[j].month == SortStrings(ordersByMonth.keys)[j]
    ensures forall j, l :: 0 <= j < l < |historicalData| ==>
              LexLess(historicalData[j].month, historicalData[l].month)
    ensures forall j :: 0 <= j < |historicalData| ==>
              var m := historicalData[j].month;
              m in ordersByMonth.entries
              && Summarises(historicalData[j], m, ordersByMonth.entries[m], uniqueSkus)
  {
    var normalised := NormaliseLines(orders);
    ordersByMonth := GroupBy(normalised, OrderMonth);
    uniqueSkus := DistinctKeys(normalised, SkuOf);
    historicalData := SummariseMonths(ordersByMonth, uniqueSkus);
    SortStringsSorted(ordersByMonth.keys);
  }

  /** The `forEach` over the input lines, normalising each one. */
  method NormaliseLines(orders: seq<Order>) returns (normalised: seq<Order>)
    ensures normalised == NormaliseAll(orders)
  {
    normalised := [];
    for i := 0 to |orders|
      invariant normalised == NormaliseAll(orders[..i])
    {
      assert orders[..i + 1][..i] == orders[..i];
      var n := ParseSkuQuantity(orders[i].sku, orders[i].quantity);
      normalised := normalised + [orders[i].(sku := n.baseSku, quantity := n.totalQuantity)];
    }
    assert orders[..|orders|] == orders;
  }

  /** The `forEach` over the sorted months, one history entry each. */
  method SummariseMonths(ordersByMonth: Record<seq<Order>>, skus: seq<string>)
    returns (historicalData: seq<Prediction>)
    requires forall k :: k in ordersByMonth.entries <==> k in ordersByMonth.keys
    ensures |historicalData| == |ordersByMonth.keys|
    ensures forall j :: 0 <= j < |historicalData| ==>
              historicalData[j].month == SortStrings(ordersByMonth.keys)[j]
    ensures forall j :: 0 <= j < |historicalData| ==>
              var m := historicalData[j].month;
              m in ordersByMonth.entries
              && Summarises(historicalData[j], m, ordersByMonth.entries[m], skus)
  {
    var months := SortStrings(ordersByMonth.keys);
    historicalData := [];
    for j := 0 to |months|
      invariant |historicalData| == j
      invariant forall l :: 0 <= l < j ==> historicalData[l].month == months[l]
      invariant forall l :: 0 <= l < j ==>
                  months[l] in ordersByMonth.entries
                  && Summarises(historicalData[l], months[l], ordersByMonth.entries[months[l]], skus)
    {
      SortStringsSameElements(ordersByMonth.keys, months[j]);
      var p := SummariseMonth(months[j], ordersByMonth.entries[months[j]], skus);
      ghost var before := historicalData;
      historicalData := historicalData + [p];
      assert historicalData[j] == p;
      assert forall l :: 0 <= l < j ==> historicalData[l] == before[l];
    }
  }

  // ---------------------------------------------------------------------
  // Forecast
  // ---------------------------------------------------------------------

  /** `Math.round`: the nearest integer, a half rounded up. */
  function Round(x: real): int {
    (x + 0.5).Floor
  }

  /** `Math.round` picks the whole number nearest to `x`, halves upwards. */
  lemma RoundNearest(x: real)
    ensures Round(x) as real - 0.5 <= x < Round(x) as real + 0.5
  {
  }

  /** `Math.pow(g, i)` for a whole exponent. */
  function Power(g: real, i: nat): real {
    if i == 0 then 1.0 else g * Power(g, i - 1)
  }

  /** A monthly figure grown `i` times at rate `growth`, rounded. */
  function Grown(x: int, growth: real, i: nat): int {
    Round(x as real * Power(growth, i))
  }

  /** The forecast quantity `i` months ahead: the last month's quantity
      grown `i` times, rounded, never below zero. */
  function PredictedQuantity(last: int, growth: real, i: nat): (n: int)
    ensures n >= 0
  {
    Max(0, Grown(last, growth, i))
  }

  lemma {:induction false} PowerOne(i: nat)
    ensures Power(1.0, i) == 1.0
  {
    if i > 0 {
      PowerOne(i - 1);
    }
  }

  /** With no growth the forecast repeats the last month's quantity. */
  lemma PredictedSteady(last: int, i: nat)
    ensures PredictedQuantity(last, 1.0, i) == Max(0, last)
  {
    PowerOne(i);
  }

  lemma {:induction false} PowerGrows(g: real, i: nat)
    requires g >= 1.0
    ensures 1.0 <= Power(g, i) <= Power(g, i + 1)
  {
    if i > 0 {
      PowerGrows(g, i - 1);
    }
  }

  lemma RoundMonotone(x: real, y: real)
    requires x <= y
    ensures Round(x) <= Round(y)
  {
  }

  /** With a growth rate of at least one, a SKU's forecast never falls
      from one month to the next. */
  lemma PredictedGrowing(last: int, growth: real, i: nat)
    requires last >= 0 && growth >= 1.0
    ensures PredictedQuantity(last, growth, i) <= PredictedQuantity(last, growth, i + 1)
  {
    PowerGrows(growth, i);
    var a := Power(growth, i);
    var b := Power(growth, i + 1);
    assert last as real * a <= last as real * b by {
      assert last as real * (b - a) >= 0.0;
    }
    RoundMonotone(last as real * a, last as real * b);
  }

  /** The key of the month `i` months after `month`: `month` is read as the
      first of that month and moved on; an unreadable month gives "NaN-NaN". */
  function NextMonthKey(month: string, i: nat): string {
    match ParseIso(month + "-01")
    case Some(d) => ShiftedMonthKey(d, i)
    case None => "NaN-NaN"
  }

  /** `setMonth(getMonth() + i)` on the first of `d`'s month, rendered as
      `<year>-<MM>`: the year carried over past December. */
  function ShiftedMonthKey(d: Date, i: nat): string {
    var m0 := d.month - 1 + i;
    IntToString(d.year + m0 / 12) + "-" + PadNat(m0 % 12 + 1, 2)
  }

  /** A month key of a four-digit year moves on by whole calendar months,
      the year carried over after December. */
  lemma NextMonthKeyOf(y: int, m: int, i: nat)
    requires 1000 <= y <= 9999 && 1 <= m <= 12
    ensures NextMonthKey(IntToString(y) + "-" + PadNat(m, 2), i) == ShiftedMonthKey(Date(y, m, 1), i)
  {
    var key := IntToString(y) + "-" + PadNat(m, 2);
    FirstOfMonthParses(y, m);
    NextMonthKeyParsed(key, Date(y, m, 1), i);
  }

  /** The first of a month of a four-digit year, written as the month key
      and "-01", reads back as that date. */
  lemma FirstOfMonthParses(y: int, m: int)
    requires 1000 <= y <= 9999 && 1 <= m <= 12
    ensures ParseIso(IntToString(y) + "-" + PadNat(m, 2) + "-01") == Some(Date(y, m, 1))
  {
    var d := Date(y, m, 1);
    assert ValidDate(d);
    assert PadNat(1, 2) == "01" by {
      assert NatToString(1) == "1";
    }
    assert IntToString(y) + "-" + PadNat(m, 2) + "-01" == FormatLocal(d);
    FormatLocalRoundTrip(d);
  }

  /** A month that reads as a date moves on from that date's month. */
  lemma NextMonthKeyParsed(month: string, d: Date, i: nat)
    requires ParseIso(month + "-01") == Some(d)
    ensures NextMonthKey(month, i) == ShiftedMonthKey(d, i)
  {
  }

  /** The lines filed under month `k`, none for a month not in the record. */
  function MonthLines(history: Record<seq<Order>>, k: string): seq<Order> {
    if k in history.entries then history.entries[k] else []
  }

  /** Summed over the months `ks`, the number of distinct orders of each. */
  function OrdersAcross(history: Record<seq<Order>>, ks: seq<string>): int {
    if |ks| == 0 then 0
    else OrdersAcross(history, ks[..|ks| - 1]) + CountDistinct(MonthLines(history, ks[|ks| - 1]), OrderNumberOf)
  }

  /** Summed over the months `ks`, the quantity of `sku` in each. */
  function SkuQuantityAcross(history: Record<seq<Order>>, ks: seq<string>, sku: string): int {
    if |ks| == 0 then 0
    else SkuQuantityAcross(history, ks[..|ks| - 1], sku)
           + SumQuantity(LinesWith(MonthLines(history, ks[|ks| - 1]), SkuOf, sku))
  }

  /** Summed over the months `ks`, the number of lines of `sku` in each. */
  function SkuLinesAcross(history: Record<seq<Order>>, ks: seq<string>, sku: string): nat {
    if |ks| == 0 then 0
    else SkuLinesAcross(history, ks[..|ks| - 1], sku)
           + |LinesWith(MonthLines(history, ks[|ks| - 1]), SkuOf, sku)|
  }

  /** The rounded mean number of distinct orders per month of history. */
  function AverageOrders(history: Record<seq<Order>>): int
    requires |history.keys| > 0
  {
    Round(OrdersAcross(history, history.keys) as real / |history.keys| as real)
  }

  /** The historical quantity per line of a SKU, rounded, at least one. */
  function SkuAverage(history: Record<seq<Order>>, sku: string): (a: int)
    ensures a >= 1
  {
    Max(1, Round(SkuQuantityAcross(history, history.keys, sku) as real
                 / Max(1, SkuLinesAcross(history, history.keys, sku)) as real))
  }

  /** The latest month of history. */
  function LastMonth(history: Record<seq<Order>>): (m: string)
    requires |history.keys| > 0
    ensures m in history.keys
  {
    var months := SortStrings(history.keys);
    SortStringsSameElements(history.keys, months[|months| - 1]);
    months[|months| - 1]
  }

  /** Every other month of history sorts before the latest. */
  lemma LastMonthLatest(history: Record<seq<Order>>, k: string)
    requires history.Valid() && |history.keys| > 0
    requires k in history.entries && k != LastMonth(history)
    ensures LexLess(k, LastMonth(history))
  {
    var months := SortStrings(history.keys);
    SortStringsSorted(history.keys);
    StrictlySortedLast(months);
    SortStringsSameElements(history.keys, k);
  }

  /** A SKU's quantity in the latest month of history. */
  function LastTotal(history: Record<seq<Order>>, sku: string): int
    requires |history.keys| > 0
  {
    SumQuantity(LinesWith(MonthLines(history, LastMonth(history)), SkuOf, sku))
  }

  /** `Math.ceil(q / a)`. */
  function CeilDiv(q: int, a: int): int
    requires a >= 1
  {
    (q + a - 1) / a
  }

  /** Splitting `q` items into orders of about `a`: between one and `q`
      orders, enough to hold them and one fewer would not. */
  lemma CeilDivBounds(q: int, a: int)
    requires q >= 1 && a >= 1
    ensures var n := CeilDiv(q, a);
            1 <= n <= q && (n - 1) * a < q <= n * a
  {
    var n := CeilDiv(q, a);
    var r := (q + a - 1) % a;
    assert q + a - 1 == n * a + r && 0 <= r < a;
    assert (n - 1) * a == n * a - a;
    assert q * a >= q by {
      assert q * (a - 1) >= 0;
    }
    assert n * a < (q + 1) * a;
    MulLess(n, q + 1, a);
  }

  lemma MulLess(x: int, y: int, a: int)
    requires a >= 1 && x * a < y * a
    ensures x < y
  {
    assert (y - x) * a > 0;
  }

  /** An even split of `q` items into `n` orders leaves fewer than `n` over,
      and puts at least one item in each. */
  lemma BaseQuantityBounds(q: int, n: int)
    requires 1 <= n <= q
    ensures n * (q / n) <= q < n * (q / n) + n
    ensures q / n >= 1
  {
    assert q == n * (q / n) + q % n;
    assert (q / n) * n > 0;
    MulLess(0, q / n, n);
  }

  /** The identifier of the `c`-th simulated order of a month. */
  function PredictionId(monthKey: string, c: nat): string {
    "pred-" + monthKey + "-" + NatToString(c)
  }

  lemma PredictionIdInjective(monthKey: string, a: nat, b: nat)
    requires PredictionId(monthKey, a) == PredictionId(monthKey, b)
    ensures a == b
  {
    var p := "pred-" + monthKey + "-";
    assert PredictionId(monthKey, a)[|p|..] == NatToString(a);
    assert PredictionId(monthKey, b)[|p|..] == NatToString(b);
    NatToStringInjective(a, b);
  }

  /** `lines` is a run of `n` simulated orders for `q` items of `sku`,
      numbered from `start`: each holds `floor(q / n)` items, at least one,
      and the items left over are fewer than the orders. */
  ghost predicate SkuRun(lines: seq<Order>, sku: string, q: int, n: int, monthKey: string, start: nat) {
    && n >= 1
    && |lines| == n
    && (forall l :: 0 <= l < n ==>
          lines[l] == Order(PredictionId(monthKey, start + l), sku, q / n, monthKey + "-01"))
    && q / n >= 1
    && SumQuantity(lines) <= q < SumQuantity(lines) + n
  }

  /** The simulated orders of one SKU: `q` items in `ceil(q / avg)` orders
      of `floor(q / n)` each, numbered on from `counter0`; the items left
      over are fewer than the orders. */
  method SimulateSku(sku: string, quantity: int, avg: int, monthKey: string, counter0: nat)
    returns (lines: seq<Order>, counter: nat)
    requires quantity > 0 && avg >= 1
    ensures counter == counter0 + CeilDiv(quantity, avg)
    ensures SkuRun(lines, sku, quantity, CeilDiv(quantity, avg), monthKey, counter0)
  {
    var numOrders := CeilDiv(quantity, avg);
    CeilDivBounds(quantity, avg);
    var baseQuantity := quantity / numOrders;
    BaseQuantityBounds(quantity, numOrders);
    var remaining := quantity;
    lines := [];
    counter := counter0;
    var j := 0;
    while j < numOrders && remaining > 0
      invariant 0 <= j <= numOrders
      invariant remaining == quantity - SumQuantity(lines)
      invariant counter == counter0 + j && |lines| == j
      invariant SumQuantity(lines) == j * baseQuantity
      invariant forall l :: 0 <= l < j ==>
                  lines[l] == Order(PredictionId(monthKey, counter0 + l), sku, baseQuantity, monthKey + "-01")
      decreases numOrders - j
    {
      RemainingCoversOrder(quantity, numOrders, baseQuantity, j);
      assert (j + 1) * baseQuantity == j * baseQuantity + baseQuantity;
      var orderQuantity := Min(baseQuantity, remaining);
      var o := Order(PredictionId(monthKey, counter), sku, orderQuantity, monthKey + "-01");
      SumQuantitySnoc(lines, o);
      lines := lines + [o];
      counter := counter + 1;
      remaining := remaining - orderQuantity;
      j := j + 1;
    }
    if j < numOrders {
      RemainingCoversOrder(quantity, numOrders, baseQuantity, j);
      assert false;
    }
  }

  /** Before the last order, what remains still fills a whole order. */
  lemma RemainingCoversOrder(q: int, n: int, b: int, j: int)
    requires 0 <= j < n && b >= 1 && n * b <= q
    ensures q - j * b >= b
  {
    assert (n - (j + 1)) * b >= 0;
    assert (n - (j + 1)) * b == n * b - j * b - b;
  }

  /** The run of `n` simulated orders for `q` items of `sku`, numbered
      from `start`, each of `floor(q / n)` items. */
  function Run(sku: string, q: int, n: nat, monthKey: string, start: nat): seq<Order>
    requires n >= 1
  {
    seq(n, l requires 0 <= l < n => Order(PredictionId(monthKey, start + l), sku, q / n, monthKey + "-01"))
  }

  /** A run holds `n` orders of `floor(q / n)` items each, so fewer than
      `n` of the `q` items are left over. */
  lemma RunIsSkuRun(sku: string, q: int, n: nat, monthKey: string, start: nat)
    requires 1 <= n <= q
    ensures SkuRun(Run(sku, q, n, monthKey, start), sku, q, n, monthKey, start)
  {
    BaseQuantityBounds(q, n);
    SumQuantityUniform(Run(sku, q, n, monthKey, start), q / n);
  }

  lemma {:induction false} SumQuantityUniform(lines: seq<Order>, c: int)
    requires forall l :: 0 <= l < |lines| ==> lines[l].quantity == c
    ensures SumQuantity(lines) == |lines| * c
  {
    if |lines| > 0 {
      SumQuantityUniform(lines[..|lines| - 1], c);
    }
  }

  lemma RunOfSkuRun(lines: seq<Order>, sku: string, q: int, n: int, monthKey: string, start: nat)
    requires SkuRun(lines, sku, q, n, monthKey, start)
    ensures lines == Run(sku, q, n, monthKey, start)
  {
  }

  /** Simulated orders carry consecutive identifiers, so no two share an
      order number. */
  lemma DistinctIds(sim: seq<Order>, monthKey: string)
    requires forall j :: 0 <= j < |sim| ==> sim[j].orderNumber == PredictionId(monthKey, j)
    ensures CountDistinct(sim, OrderNumberOf) == |sim|
  {
    var ks := Keys(sim, OrderNumberOf);
    assert NoDups(ks) by {
      forall i, j | 0 <= i < j < |ks| ensures ks[i] != ks[j] {
        if ks[i] == ks[j] {
          PredictionIdInjective(monthKey, i, j);
        }
      }
    }
    DedupNoDups(ks);
  }

  /** Summed over the SKUs `ks`, the number of orders simulated for each:
      none for a SKU forecast at zero or below. */
  function SimulatedCount(preds: Record<int>, history: Record<seq<Order>>, ks: seq<string>): int {
    if |ks| == 0 then 0
    else SimulatedCount(preds, history, ks[..|ks| - 1]) + OrdersFor(preds, history, ks[|ks| - 1])
  }

  /** The forecast of `sku`, zero for a SKU not forecast. */
  function Forecast(preds: Record<int>, sku: string): int {
    if sku in preds.entries then preds.entries[sku] else 0
  }

  /** The number of orders simulated for one SKU: `ceil(q / avg)` for a
      forecast `q` above zero, none otherwise. */
  function OrdersFor(preds: Record<int>, history: Record<seq<Order>>, sku: string): int {
    var q := Forecast(preds, sku);
    if q > 0 then CeilDiv(q, SkuAverage(history, sku)) else 0
  }

  /** Each simulated order is numbered by its position, dated the first of
      the month, holds at least one item, and is for one of the SKUs `ks`
      forecast above zero. */
  ghost predicate SimulatedLines(sim: seq<Order>, preds: Record<int>, monthKey: string, ks: seq<string>) {
    forall j :: 0 <= j < |sim| ==>
      && sim[j].orderNumber == PredictionId(monthKey, j)
      && sim[j].date == monthKey + "-01"
      && sim[j].quantity >= 1
      && sim[j].sku in ks && Forecast(preds, sim[j].sku) > 0
  }

  /** Per SKU of `ks` forecast above zero, the simulated orders number
      `ceil(q / avg)` and hold the forecast `q` but for fewer items than
      orders. */
  ghost predicate SimulatedPerSku(sim: seq<Order>, preds: Record<int>, history: Record<seq<Order>>, ks: seq<string>) {
    forall s :: s in ks && Forecast(preds, s) > 0 ==>
      var ls := LinesWith(sim, SkuOf, s);
      |ls| == OrdersFor(preds, history, s)
      && SumQuantity(ls) <= Forecast(preds, s) < SumQuantity(ls) + |ls|
  }

  /** `sim` is the simulation of the forecasts of the SKUs `ks`. */
  ghost predicate Simulates(sim: seq<Order>, preds: Record<int>, history: Record<seq<Order>>,
                            monthKey: string, ks: seq<string>) {
    && |sim| == SimulatedCount(preds, history, ks)
    && SimulatedLines(sim, preds, monthKey, ks)
    && SimulatedPerSku(sim, preds, history, ks)
  }

  /** The orders simulated for one SKU, numbered from `start`: for a
      forecast of `q > 0` items, a run of `ceil(q / avg)` orders of
      `floor(q / n)` items each; nothing otherwise. */
  function SkuSimulation(preds: Record<int>, history: Record<seq<Order>>, monthKey: string,
                         sku: string, start: nat): seq<Order>
  {
    var q := Forecast(preds, sku);
    if q > 0 then
      var avg := SkuAverage(history, sku);
      CeilDivBounds(q, avg);
      Run(sku, q, CeilDiv(q, avg), monthKey, start)
    else []
  }

  /** The orders simulated for the SKUs `ks` in turn, each SKU's run
      numbered on from the orders before it. */
  function SimulationOf(preds: Record<int>, history: Record<seq<Order>>, monthKey: string,
                        ks: seq<string>): seq<Order>
  {
    if |ks| == 0 then []
    else
      var prev := SimulationOf(preds, history, monthKey, ks[..|ks| - 1]);
      prev + SkuSimulation(preds, history, monthKey, ks[|ks| - 1], |prev|)
  }

  lemma SimulationOfSnoc(preds: Record<int>, history: Record<seq<Order>>, monthKey: string,
                         ks: seq<string>, sku: string)
    ensures var prev := SimulationOf(preds, history, monthKey, ks);
            SimulationOf(preds, history, monthKey, ks + [sku])
            == prev + SkuSimulation(preds, history, monthKey, sku, |prev|)
  {
    assert (ks + [sku])[..|ks|] == ks;
  }

  /** The simulation's orders are numbered by position, dated the first of
      the month, hold at least one item, and are for SKUs of `ks` forecast
      above zero. */
  lemma {:induction false} SimulationLines(preds: Record<int>, history: Record<seq<Order>>,
                                           monthKey: string, ks: seq<string>)
    ensures SimulatedLines(SimulationOf(preds, history, monthKey, ks), preds, monthKey, ks)
  {
    if |ks| > 0 {
      var init, sku := ks[..|ks| - 1], ks[|ks| - 1];
      assert ks == init + [sku];
      SimulationLines(preds, history, monthKey, init);
      var prev := SimulationOf(preds, history, monthKey, init);
      SimulationOfSnoc(preds, history, monthKey, init, sku);
      if Forecast(preds, sku) > 0 {
        SkuSimulationFacts(preds, history, monthKey, sku, |prev|);
        SimulatedLinesStep(prev, SkuSimulation(preds, history, monthKey, sku, |prev|), preds, monthKey, init, sku);
      } else {
        assert SimulationOf(preds, history, monthKey, ks) == prev;
      }
    }
  }

  /** The orders simulated for one SKU: `ceil(q / avg)` of them for a
      forecast `q > 0`, for that SKU, numbered on from `start`, holding all
      but fewer than that many of the `q` items. */
  lemma SkuSimulationFacts(preds: Record<int>, history: Record<seq<Order>>, monthKey: string,
                           sku: string, start: nat)
    ensures var block := SkuSimulation(preds, history, monthKey, sku, start);
            && |block| == OrdersFor(preds, history, sku)
            && RunOrders(block, sku, monthKey, start)
            && (Forecast(preds, sku) > 0 ==>
                  SumQuantity(block) <= Forecast(preds, sku) < SumQuantity(block) + |block|)
  {
    var q := Forecast(preds, sku);
    if q > 0 {
      var n := CeilDiv(q, SkuAverage(history, sku));
      CeilDivBounds(q, SkuAverage(history, sku));
      RunIsSkuRun(sku, q, n, monthKey, start);
      RunFacts(Run(sku, q, n, monthKey, start), sku, q, n, monthKey, start);
    }
  }

  /** The simulation of the SKUs `ks` has one order per order counted. */
  lemma {:induction false} SimulationCount(preds: Record<int>, history: Record<seq<Order>>,
                                           monthKey: string, ks: seq<string>)
    ensures |SimulationOf(preds, history, monthKey, ks)| == SimulatedCount(preds, history, ks)
  {
    if |ks| > 0 {
      var init, sku := ks[..|ks| - 1], ks[|ks| - 1];
      SimulationCount(preds, history, monthKey, init);
      SkuSimulationFacts(preds, history, monthKey, sku, |SimulationOf(preds, history, monthKey, init)|);
    }
  }

  /** Per SKU of the distinct SKUs `ks` forecast `q > 0`, the simulation
      holds `ceil(q / avg)` orders with all but fewer than that many of the
      items; a SKU outside `ks` has no simulated line. */
  lemma {:induction false} SimulationPerSku(preds: Record<int>, history: Record<seq<Order>>,
                                            monthKey: string, ks: seq<string>)
    requires NoDups(ks)
    ensures SimulatedPerSku(SimulationOf(preds, history, monthKey, ks), preds, history, ks)
    ensures forall s :: s !in ks ==> LinesWith(SimulationOf(preds, history, monthKey, ks), SkuOf, s) == []
  {
    if |ks| > 0 {
      var init, sku := ks[..|ks| - 1], ks[|ks| - 1];
      assert ks == init + [sku];
      assert sku !in init by {
        forall j | 0 <= j < |init| ensures init[j] != sku {
          assert ks[j] != ks[|ks| - 1];
        }
      }
      SimulationPerSku(preds, history, monthKey, init);
      var prev := SimulationOf(preds, history, monthKey, init);
      var block := SkuSimulation(preds, history, monthKey, sku, |prev|);
      SimulationOfSnoc(preds, history, monthKey, init, sku);
      SkuSimulationFacts(preds, history, monthKey, sku, |prev|);
      RunLines(prev, block, sku);
      if Forecast(preds, sku) > 0 {
        SimulatedPerSkuStep(prev, block, preds, history, init, sku);
      } else {
        assert block == [];
        assert prev + block == prev;
      }
      NoStrayLinesStep(prev, block, init, sku);
    }
  }

  /** The simulation of distinct SKUs is their simulation in the sense of
      `Simulates`. */
  lemma SimulationSimulates(preds: Record<int>, history: Record<seq<Order>>,
                            monthKey: string, ks: seq<string>)
    requires NoDups(ks)
    ensures Simulates(SimulationOf(preds, history, monthKey, ks), preds, history, monthKey, ks)
  {
    SimulationCount(preds, history, monthKey, ks);
    SimulationLines(preds, history, monthKey, ks);
    SimulationPerSku(preds, history, monthKey, ks);
  }

  /** The `forEach` over the forecast SKUs that simulates their orders. */
  method SimulateOrders(preds: Record<int>, history: Record<seq<Order>>, monthKey: string)
    returns (sim: seq<Order>, orderCounter: nat)
    requires preds.Valid()
    ensures orderCounter == |sim|
    ensures sim == SimulationOf(preds, history, monthKey, preds.keys)
    ensures Simulates(sim, preds, history, monthKey, preds.keys)
  {
    sim := [];
    orderCounter := 0;
    var ks := preds.keys;
    for i := 0 to |ks|
      invariant orderCounter == |sim|
      invariant sim == SimulationOf(preds, history, monthKey, ks[..i])
    {
      var sku := ks[i];
      var quantity := preds.entries[sku];
      assert ks[..i + 1] == ks[..i] + [sku];
      SimulationOfSnoc(preds, history, monthKey, ks[..i], sku);
      if quantity > 0 {
        var historicalAvg := SkuAverage(history, sku);
        var block, counter := SimulateSku(sku, quantity, historicalAvg, monthKey, orderCounter);
        RunOfSkuRun(block, sku, quantity, CeilDiv(quantity, historicalAvg), monthKey, orderCounter);
        sim := sim + block;
        orderCounter := counter;
      }
    }
    assert ks[..|ks|] == ks;
    SimulationSimulates(preds, history, monthKey, ks);
  }

  lemma SimulatedCountSnoc(preds: Record<int>, history: Record<seq<Order>>, ks: seq<string>, sku: string)
    ensures SimulatedCount(preds, history, ks + [sku])
            == SimulatedCount(preds, history, ks) + OrdersFor(preds, history, sku)
  {
    assert (ks + [sku])[..|ks|] == ks;
  }

  /** A SKU outside `ks + [sku]` still has no simulated line. */
  lemma NoStrayLinesStep(sim: seq<Order>, block: seq<Order>, ks: seq<string>, sku: string)
    requires forall s :: s !in ks ==> LinesWith(sim, SkuOf, s) == []
    requires forall s :: LinesWith(sim + block, SkuOf, s)
                         == LinesWith(sim, SkuOf, s) + (if s == sku then block else [])
    ensures forall s :: s !in ks + [sku] ==> LinesWith(sim + block, SkuOf, s) == []
  {
    forall s | s !in ks + [sku] ensures LinesWith(sim + block, SkuOf, s) == [] {
      assert s !in ks && s != sku;
    }
  }

  /** Each order of `block` is for `sku`, dated the first of the month,
      holds at least one item and is numbered on from `start`. */
  ghost predicate RunOrders(block: seq<Order>, sku: string, monthKey: string, start: nat) {
    forall l :: 0 <= l < |block| ==>
      && block[l].orderNumber == PredictionId(monthKey, start + l)
      && block[l].date == monthKey + "-01"
      && block[l].quantity >= 1
      && block[l].sku == sku
  }

  /** The orders of a run, one by one. */
  lemma RunFacts(block: seq<Order>, sku: string, q: int, n: int, monthKey: string, start: nat)
    requires SkuRun(block, sku, q, n, monthKey, start)
    ensures RunOrders(block, sku, monthKey, start)
    ensures |block| == n && SumQuantity(block) <= q < SumQuantity(block) + n
  {
  }

  /** Appending a run of one SKU adds to that SKU's lines only. */
  lemma RunLines(sim: seq<Order>, block: seq<Order>, sku: string)
    requires forall l :: 0 <= l < |block| ==> block[l].sku == sku
    ensures forall s :: LinesWith(sim + block, SkuOf, s)
                        == LinesWith(sim, SkuOf, s) + (if s == sku then block else [])
  {
    forall s ensures LinesWith(sim + block, SkuOf, s)
                     == LinesWith(sim, SkuOf, s) + (if s == sku then block else []) {
      LinesWithAppend(sim, block, SkuOf, s);
      LinesWithUniform(block, SkuOf, sku, s);
    }
  }

  lemma SimulatedPerSkuStep(sim: seq<Order>, block: seq<Order>, preds: Record<int>,
                            history: Record<seq<Order>>, ks: seq<string>, sku: string)
    requires sku !in ks && Forecast(preds, sku) > 0
    requires SimulatedPerSku(sim, preds, history, ks)
    requires LinesWith(sim, SkuOf, sku) == []
    requires forall s :: LinesWith(sim + block, SkuOf, s)
                         == LinesWith(sim, SkuOf, s) + (if s == sku then block else [])
    requires |block| == OrdersFor(preds, history, sku)
    requires SumQuantity(block) <= Forecast(preds, sku) < SumQuantity(block) + |block|
    ensures SimulatedPerSku(sim + block, preds, history, ks + [sku])
  {
    forall s | s in ks + [sku] && Forecast(preds, s) > 0
      ensures var ls := LinesWith(sim + block, SkuOf, s);
              |ls| == OrdersFor(preds, history, s)
              && SumQuantity(ls) <= Forecast(preds, s) < SumQuantity(ls) + |ls|
    {
      if s == sku {
        assert LinesWith(sim + block, SkuOf, s) == block;
      } else {
        assert LinesWith(sim + block, SkuOf, s) == LinesWith(sim, SkuOf, s);
      }
    }
  }

  lemma SimulatedLinesStep(sim: seq<Order>, block: seq<Order>, preds: Record<int>,
                           monthKey: string, ks: seq<string>, sku: string)
    requires Forecast(preds, sku) > 0
    requires SimulatedLines(sim, preds, monthKey, ks)
    requires forall l :: 0 <= l < |block| ==>
               && block[l].orderNumber == PredictionId(monthKey, |sim| + l)
               && block[l].date == monthKey + "-01"
               && block[l].quantity >= 1
               && block[l].sku == sku
    ensures SimulatedLines(sim + block, preds, monthKey, ks + [sku])
  {
    var all := sim + block;
    forall j | 0 <= j < |all|
      ensures && all[j].orderNumber == PredictionId(monthKey, j)
              && all[j].date == monthKey + "-01"
              && all[j].quantity >= 1
              && all[j].sku in ks + [sku] && Forecast(preds, all[j].sku) > 0
    {
      if j >= |sim| {
        assert all[j] == block[j - |sim|];
      } else {
        assert all[j] == sim[j];
      }
    }
  }

  /** The forecast of a SKU `i` months ahead from its quantity among
      `lastLines`, the latest month of history. */
  function SkuForecast(lastLines: seq<Order>, growth: real, i: nat): string -> int {
    sku => PredictedQuantity(SumQuantity(LinesWith(lastLines, SkuOf, sku)), growth, i)
  }

  /** The `forEach` over the SKUs that forecasts each one from the latest
      month of history. */
  method PredictSkus(history: Record<seq<Order>>, skus: seq<string>, growth: real, i: nat)
    returns (r: Record<int>)
    requires |history.keys| > 0
    ensures Tabulates(r, skus, SkuForecast(MonthLines(history, LastMonth(history)), growth, i))
  {
    var lastLines := MonthLines(history, LastMonth(history));
    r := Record([], map[]);
    for j := 0 to |skus|
      invariant Tabulates(r, skus[..j], SkuForecast(lastLines, growth, i))
    {
      var lastValue := SumQuantity(LinesWith(lastLines, SkuOf, skus[j]));
      var predictedValue := PredictedQuantity(lastValue, growth, i);
      TabulatesStep(r, skus, j, SkuForecast(lastLines, growth, i));
      r := Put(r, skus[j], predictedValue);
    }
    assert skus[..|skus|] == skus;
  }

  /** The number of orders a packaging provides for. */
  function Boxes(p: Packaging): nat {
    p.envelopes + p.sixMonthBoxes + p.twelveMonthBoxes
  }

  /** The forecast `i` months after the latest month of history: the month
      key, every SKU's forecast, packaging for the simulated orders (one
      box per simulated order) and an order count that is the larger of the
      simulated orders and the grown monthly average. */
  ghost predicate Forecasts(p: Prediction, history: Record<seq<Order>>, skus: seq<string>,
                            growth: real, i: nat)
    requires |history.keys| > 0
  {
    && p.month == NextMonthKey(LastMonth(history), i)
    && Tabulates(p.skuPredictions, skus, SkuForecast(MonthLines(history, LastMonth(history)), growth, i))
    && p.orderSizes == SizesOf(p.packaging)
    && p.packaging == PackagingOf(SimulationOf(p.skuPredictions, history, p.month, p.skuPredictions.keys))
    && Boxes(p.packaging) == SimulatedCount(p.skuPredictions, history, p.skuPredictions.keys)
    && p.totalOrders
       == Max(Boxes(p.packaging), Grown(AverageOrders(history), growth, i))
  }

  /** The prediction assembled from a forecast, its simulated orders and
      their packaging is the forecast `i` months ahead. */
  lemma ForecastOf(history: Record<seq<Order>>, skus: seq<string>, growth: real, i: nat,
                   preds: Record<int>, sim: seq<Order>, packaging: Packaging, p: Prediction)
    requires |history.keys| > 0
    requires Tabulates(preds, skus, SkuForecast(MonthLines(history, LastMonth(history)), growth, i))
    requires sim == SimulationOf(preds, history, p.month, preds.keys)
    requires SimulatedLines(sim, preds, p.month, preds.keys)
    requires |sim| == SimulatedCount(preds, history, preds.keys)
    requires packaging == PackagingOf(sim)
    requires Boxes(packaging) == CountDistinct(sim, OrderNumberOf)
    requires p.month == NextMonthKey(LastMonth(history), i)
    requires p.skuPredictions == preds && p.packaging == packaging
    requires p.orderSizes == SizesOf(packaging)
    requires p.totalOrders == Max(|sim|, Grown(AverageOrders(history), growth, i))
    ensures Forecasts(p, history, skus, growth, i)
  {
    DistinctIds(sim, p.month);
  }

  /** Every simulated order is an order of its own, so the packaging of a
      simulation boxes each simulated line by itself. */
  lemma SimulationPackaging(preds: Record<int>, history: Record<seq<Order>>, monthKey: string, ks: seq<string>)
    ensures PackagingOf(SimulationOf(preds, history, monthKey, ks))
            == LinePackaging(SimulationOf(preds, history, monthKey, ks))
  {
    var sim := SimulationOf(preds, history, monthKey, ks);
    SimulationLines(preds, history, monthKey, ks);
    forall a, b | 0 <= a < |sim| && 0 <= b < |sim| && a != b
      ensures sim[a].orderNumber != sim[b].orderNumber
    {
      if sim[a].orderNumber == sim[b].orderNumber {
        PredictionIdInjective(monthKey, a, b);
      }
    }
    OneLineOrdersPackaging(sim);
  }

  /** When every SKU of `ks` forecast above zero is a bottle, every
      simulated order ships in a twelve-month box. */
  lemma BottleSimulationPackaging(preds: Record<int>, history: Record<seq<Order>>, monthKey: string,
                                  ks: seq<string>)
    requires forall s :: s in ks && Forecast(preds, s) > 0 ==> IsBottle(s)
    ensures PackagingOf(SimulationOf(preds, history, monthKey, ks))
            == Packaging(0, 0, |SimulationOf(preds, history, monthKey, ks)|)
  {
    SimulationPackaging(preds, history, monthKey, ks);
    SimulationLines(preds, history, monthKey, ks);
    BottleLineBoxes(SimulationOf(preds, history, monthKey, ks));
  }

  /** A forecast boxes each of its simulated orders by that order's one line. */
  lemma ForecastPackaging(p: Prediction, history: Record<seq<Order>>, skus: seq<string>,
                          growth: real, i: nat)
    requires |history.keys| > 0 && Forecasts(p, history, skus, growth, i)
    ensures p.packaging
            == LinePackaging(SimulationOf(p.skuPredictions, history, p.month, p.skuPredictions.keys))
  {
    SimulationPackaging(p.skuPredictions, history, p.month, p.skuPredictions.keys);
  }

  /** When every SKU forecast above zero is a bottle, the forecast ships
      every simulated order in a twelve-month box: no envelopes, no
      six-month boxes. */
  lemma BottleForecastBoxes(p: Prediction, history: Record<seq<Order>>, skus: seq<string>,
                            growth: real, i: nat)
    requires |history.keys| > 0 && Forecasts(p, history, skus, growth, i)
    requires forall s :: s in p.skuPredictions.keys && Forecast(p.skuPredictions, s) > 0 ==> IsBottle(s)
    ensures p.packaging
            == Packaging(0, 0, SimulatedCount(p.skuPredictions, history, p.skuPredictions.keys))
  {
    BottleSimulationPackaging(p.skuPredictions, history, p.month, p.skuPredictions.keys);
  }

  /** One pass of the forecast loop. */
  method PredictMonth(history: Record<seq<Order>>, skus: seq<string>, growth: real, i: nat,
                      avgOrdersPerMonth: int, lastMonth: string)
    returns (p: Prediction)
    requires |history.keys| > 0
    requires lastMonth == LastMonth(history) && avgOrdersPerMonth == AverageOrders(history)
    ensures Forecasts(p, history, skus, growth, i)
  {
    var monthKey := NextMonthKey(lastMonth, i);
    var skuPredictions := PredictSkus(history, skus, growth, i);
    var simulatedOrders, orderCounter := SimulateOrders(skuPredictions, history, monthKey);
    var packaging := CalculatePackaging(simulatedOrders);
    var adjustedTotalOrders := Grown(avgOrdersPerMonth, growth, i);
    p := Prediction(monthKey, skuPredictions, SizesOf(packaging), packaging,
                    Max(orderCounter, adjustedTotalOrders));
    ForecastOf(history, skus, growth, i, skuPredictions, simulatedOrders, packaging, p);
  }

  /** `predictNextMonths`: three forecasts, one, two and three months
      after the latest month of history. With no history there is nothing
      to forecast from (`None`). */
  method PredictNextMonths(history: Record<seq<Order>>, uniqueSkus: seq<string>, growthRate: real)
    returns (r: Option<seq<Prediction>>)
    ensures r.None? <==> |history.keys| == 0
    ensures r.Some? ==> |r.value| == 3
    ensures r.Some? ==> Forecasts(r.value[0], history, uniqueSkus, growthRate, 1)
    ensures r.Some? ==> Forecasts(r.value[1], history, uniqueSkus, growthRate, 2)
    ensures r.Some? ==> Forecasts(r.value[2], history, uniqueSkus, growthRate, 3)
  {
    if |history.keys| == 0 {
      return None;
    }
    var months := SortStrings(history.keys);
    var avgOrdersPerMonth := AverageOrders(history);
    var lastMonth := months[|months| - 1];
    assert lastMonth == LastMonth(history);
    var predictions: seq<Prediction> := [];
    for i := 1 to 4
      invariant |predictions| == i - 1
      invariant i > 1 ==> Forecasts(predictions[0], history, uniqueSkus, growthRate, 1)
      invariant i > 2 ==> Forecasts(predictions[1], history, uniqueSkus, growthRate, 2)
      invariant i > 3 ==> Forecasts(predictions[2], history, uniqueSkus, growthRate, 3)
    {
      var p := PredictMonth(history, uniqueSkus, growthRate, i, avgOrdersPerMonth, lastMonth);
      predictions := predictions + [p];
    }
    return Some(predictions);
  }
}
