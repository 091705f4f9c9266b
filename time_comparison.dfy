/** Comparing two periods of order lines: keeping the lines of one week,
    month, quarter, year or custom date range, the headline metrics of a
    slice of lines, the periods present in the data at each granularity,
    and the two most recent months the dashboard opens with. */
module TimeComparison {
  import opened Common
  import opened Text
  import opened Dates

  /** The `customRange` argument of the period filter. */
  datatype DateRange = DateRange(start: string, end: string)

  /** The bounds of two custom ranges, as typed into the date inputs. */
  datatype CustomRange = CustomRange(start1: string, end1: string, start2: string, end2: string)

  /** The two periods the dashboard compares. */
  datatype Selection = Selection(periodType: PeriodType, period1: string, period2: string,
                                 customRange: Option<CustomRange>)

  /** Four empty bounds. */
  const EmptyRange := CustomRange("", "", "", "")

  // ---------------------------------------------------------------------
  // Filtering by period
  // ---------------------------------------------------------------------

  /** `start <= d && d <= end` on `Date` objects: by calendar day. */
  predicate Within(d: Date, start: Date, end: Date)
    requires ValidDate(d) && ValidDate(start) && ValidDate(end)
  {
    DayNumber(start) <= DayNumber(d) <= DayNumber(end)
  }

  /** The filter callback: a line is kept when its date parses and, for a
      custom type with a range whose bounds both parse, lies in the range;
      for any other type, when its key at that granularity is `period`. A
      parse failure anywhere drops the line. */
  predicate InPeriod(o: Order, periodType: PeriodType, period: string, customRange: Option<DateRange>) {
    match ParseDate(o.date)
    case Err(_) => false
    case Ok(d) =>
      if periodType == Custom && customRange.Some? then
        match ParseDate(customRange.value.start)
        case Err(_) => false
        case Ok(start) =>
          match ParseDate(customRange.value.end)
          case Err(_) => false
          case Ok(end) => Within(d, start, end)
      else
        PeriodKey(periodType, d) == Some(period)
  }

  /** `filterDataByPeriod`: the lines of one period, in input order. */
  function FilterDataByPeriod(data: seq<Order>, periodType: PeriodType, period: string,
                              customRange: Option<DateRange>): seq<Order>
  {
    Select(data, o => InPeriod(o, periodType, period, customRange))
  }

  /** A line is in the filtered list iff it is in the input and the
      callback keeps it. */
  lemma FilterKeeps(data: seq<Order>, periodType: PeriodType, period: string,
                    customRange: Option<DateRange>, o: Order)
    ensures o in FilterDataByPeriod(data, periodType, period, customRange)
            <==> o in data && InPeriod(o, periodType, period, customRange)
  {
    SelectHas(data, o => InPeriod(o, periodType, period, customRange), o);
  }

  /** The filter keeps input order: filtering a concatenation filters each
      part and concatenates the results; and it never adds lines. */
  lemma FilterAppend(a: seq<Order>, b: seq<Order>, periodType: PeriodType,
                     period: string, customRange: Option<DateRange>)
    ensures FilterDataByPeriod(a + b, periodType, period, customRange)
         == FilterDataByPeriod(a, periodType, period, customRange)
            + FilterDataByPeriod(b, periodType, period, customRange)
    ensures |FilterDataByPeriod(a, periodType, period, customRange)| <= |a|
  {
    SelectAppend(a, b, o => InPeriod(o, periodType, period, customRange));
  }

  /** For a week, month, quarter or year, exactly the lines whose date
      parses and whose key at that granularity is `period` are kept. */
  lemma FilterByKey(data: seq<Order>, periodType: PeriodType, period: string,
                    customRange: Option<DateRange>, o: Order)
    requires periodType != Custom
    ensures o in FilterDataByPeriod(data, periodType, period, customRange)
            <==> o in data && ParseDate(o.date).Ok?
                 && PeriodKey(periodType, ParseDate(o.date).value) == Some(period)
  {
    FilterKeeps(data, periodType, period, customRange, o);
  }

  /** With a custom range, exactly the lines whose date and both bounds
      parse and whose day lies between the bounds, both included, are kept. */
  lemma FilterByRange(data: seq<Order>, period: string, start: string, end: string, o: Order)
    ensures o in FilterDataByPeriod(data, Custom, period, Some(DateRange(start, end)))
            <==> o in data && ParseDate(o.date).Ok? && ParseDate(start).Ok? && ParseDate(end).Ok?
                 && DayNumber(ParseDate(start).value) <= DayNumber(ParseDate(o.date).value)
                 && DayNumber(ParseDate(o.date).value) <= DayNumber(ParseDate(end).value)
  {
    FilterKeeps(data, Custom, period, Some(DateRange(start, end)), o);
  }

  /** A custom type without a range keeps nothing. */
  lemma FilterCustomWithoutRange(data: seq<Order>, period: string)
    ensures FilterDataByPeriod(data, Custom, period, None) == []
  {
    SelectNone(data, o => InPeriod(o, Custom, period, None));
  }

  // ---------------------------------------------------------------------
  // Period metrics
  // ---------------------------------------------------------------------

  datatype PeriodMetrics = PeriodMetrics(totalOrders: nat, totalItems: int, averageOrderSize: real,
                                         uniqueSkus: nat)

  /** `calculatePeriodMetrics`: the number of distinct order numbers, the
      total quantity, the mean quantity per order and the number of distinct
      SKUs; all zero without lines. */
  function CalculatePeriodMetrics(data: seq<Order>): (m: PeriodMetrics)
    ensures |data| == 0 ==> m == PeriodMetrics(0, 0, 0.0, 0)
    ensures m.totalOrders == |set o | o in data :: o.orderNumber|
    ensures m.uniqueSkus == |set o | o in data :: o.sku|
    ensures m.totalItems == SumQuantity(data)
    ensures |data| > 0 ==> 1 <= m.totalOrders <= |data| && 1 <= m.uniqueSkus <= |data|
  {
    var orders := CountDistinct(data, OrderNumberOf);
    var skus := CountDistinct(data, SkuOf);
    var items := SumQuantity(data);
    var byOrder, bySku := OrderNumberOf, SkuOf;
    assert orders == |set o | o in data :: byOrder(o)| && skus == |set o | o in data :: bySku(o)|;
    assert (set o | o in data :: byOrder(o)) == set o | o in data :: o.orderNumber;
    assert (set o | o in data :: bySku(o)) == set o | o in data :: o.sku;
    if |data| == 0 then PeriodMetrics(0, 0, 0.0, 0)
    else PeriodMetrics(orders, items, items as real / orders as real, skus)
  }

  /** The average order size is the total quantity shared evenly over the
      orders. */
  lemma PeriodAverage(data: seq<Order>)
    ensures var m := CalculatePeriodMetrics(data);
            m.totalOrders > 0 ==> m.averageOrderSize * m.totalOrders as real == m.totalItems as real
  {
  }

  // ---------------------------------------------------------------------
  // Available periods
  // ---------------------------------------------------------------------

  /** The periods present in some lines, at each granularity. */
  datatype AvailablePeriods = AvailablePeriods(weeks: seq<string>, months: seq<string>,
                                               quarters: seq<string>, years: seq<string>)

  /** A line's key at a granularity, when its date parses. */
  function LineKey(o: Order, periodType: PeriodType): Option<string> {
    match ParseDate(o.date)
    case Ok(d) => PeriodKey(periodType, d)
    case Err(_) => None
  }

  /** The keys of the lines whose date parses, in input order. */
  function ParsedKeys(data: seq<Order>, periodType: PeriodType): seq<string> {
    PresentKeys(data, o => LineKey(o, periodType))
  }

  /** The distinct keys at a granularity, in the default sort order. */
  function AvailableKeys(data: seq<Order>, periodType: PeriodType): seq<string> {
    SortStrings(Dedup(ParsedKeys(data, periodType)))
  }

  function AvailableOf(data: seq<Order>): AvailablePeriods {
    AvailablePeriods(AvailableKeys(data, Week), AvailableKeys(data, Month),
                     AvailableKeys(data, Quarter), AvailableKeys(data, Year))
  }

  /** `getAvailablePeriods`: one pass adding each parseable line's four
      keys to four sets, then each set listed and sorted. */
  method GetAvailablePeriods(data: seq<Order>) returns (p: AvailablePeriods)
    ensures p == AvailableOf(data)
  {
    if |data| == 0 {
      return AvailablePeriods([], [], [], []);
    }
    var weeks: seq<string>, months: seq<string>, quarters: seq<string>, years: seq<string> := [], [], [], [];
    for i := 0 to |data|
      invariant Collected(weeks, months, quarters, years, data[..i])
    {
      match ParseDate(data[i].date)
      case Ok(date) =>
        CollectStep(weeks, months, quarters, years, data, i, date);
        weeks := AddKey(weeks, WeekKey(date));
        months := AddKey(months, MonthKey(date));
        quarters := AddKey(quarters, QuarterKey(date));
        years := AddKey(years, YearKey(date));
      case Err(_) =>
        SkipStep(weeks, months, quarters, years, data, i);
    }
    assert data[..|data|] == data;
    p := AvailablePeriods(SortStrings(weeks), SortStrings(months), SortStrings(quarters), SortStrings(years));
  }

  /** The four sets hold, in insertion order, the keys of the lines read so
      far whose date parses. */
  ghost predicate Collected(weeks: seq<string>, months: seq<string>, quarters: seq<string>,
                            years: seq<string>, data: seq<Order>) {
    && weeks == Dedup(ParsedKeys(data, Week))
    && months == Dedup(ParsedKeys(data, Month))
    && quarters == Dedup(ParsedKeys(data, Quarter))
    && years == Dedup(ParsedKeys(data, Year))
  }

  /** A line whose date parses adds its four keys. */
  lemma CollectStep(weeks: seq<string>, months: seq<string>, quarters: seq<string>, years: seq<string>,
                    data: seq<Order>, i: nat, date: Date)
    requires i < |data| && Collected(weeks, months, quarters, years, data[..i])
    requires ParseDate(data[i].date) == Ok(date)
    ensures Collected(AddKey(weeks, WeekKey(date)), AddKey(months, MonthKey(date)),
                      AddKey(quarters, QuarterKey(date)), AddKey(years, YearKey(date)), data[..i + 1])
  {
    AddLineKey(data, i, Week, date);
    AddLineKey(data, i, Month, date);
    AddLineKey(data, i, Quarter, date);
    AddLineKey(data, i, Year, date);
  }

  /** A line whose date does not parse adds nothing. */
  lemma SkipStep(weeks: seq<string>, months: seq<string>, quarters: seq<string>, years: seq<string>,
                 data: seq<Order>, i: nat)
    requires i < |data| && Collected(weeks, months, quarters, years, data[..i])
    requires ParseDate(data[i].date).Err?
    ensures Collected(weeks, months, quarters, years, data[..i + 1])
  {
    SkipLine(data, i, Week);
    SkipLine(data, i, Month);
    SkipLine(data, i, Quarter);
    SkipLine(data, i, Year);
  }

  /** A line whose date parses adds its key to the set. */
  lemma AddLineKey(data: seq<Order>, i: nat, periodType: PeriodType, date: Date)
    requires i < |data| && periodType != Custom && ParseDate(data[i].date) == Ok(date)
    ensures Dedup(ParsedKeys(data[..i + 1], periodType))
         == AddKey(Dedup(ParsedKeys(data[..i], periodType)), PeriodKey(periodType, date).value)
  {
    PresentKeysStep(data, i, o => LineKey(o, periodType));
    DedupSnoc(ParsedKeys(data[..i], periodType), PeriodKey(periodType, date).value);
  }

  /** A line whose date does not parse adds nothing. */
  lemma SkipLine(data: seq<Order>, i: nat, periodType: PeriodType)
    requires i < |data| && LineKey(data[i], periodType) == None
    ensures ParsedKeys(data[..i + 1], periodType) == ParsedKeys(data[..i], periodType)
  {
    PresentKeysStep(data, i, o => LineKey(o, periodType));
  }

  /** The available keys are strictly increasing, hence without repeats. */
  lemma AvailableKeysSorted(data: seq<Order>, periodType: PeriodType)
    ensures StrictlySorted(AvailableKeys(data, periodType))
  {
    SortStringsSorted(Dedup(ParsedKeys(data, periodType)));
  }

  /** The available keys are exactly the keys of the lines whose date
      parses. */
  lemma AvailableKeysSpec(data: seq<Order>, periodType: PeriodType, k: string)
    ensures k in AvailableKeys(data, periodType)
            <==> exists i :: 0 <= i < |data| && LineKey(data[i], periodType) == Some(k)
  {
    var ks := ParsedKeys(data, periodType);
    SortStringsSameElements(Dedup(ks), k);
    assert k in Dedup(ks) <==> k in ToSet(Dedup(ks));
    assert k in ks <==> k in ToSet(ks);
    PresentKeysHas(data, o => LineKey(o, periodType), k);
  }

  /** No lines, no periods. */
  lemma AvailableEmpty(periodType: PeriodType)
    ensures AvailableKeys([], periodType) == []
  {
  }

  // ---------------------------------------------------------------------
  // Initial selection
  // ---------------------------------------------------------------------

  /** `getInitialPeriods`: the second-newest and newest months, with empty
      custom bounds; none without lines or with fewer than two months. */
  function GetInitialPeriods(data: seq<Order>): Option<Selection> {
    if |data| == 0 then None
    else
      var months := AvailableKeys(data, Month);
      if |months| < 2 then None
      else Some(Selection(Month, months[|months| - 2], months[|months| - 1], Some(EmptyRange)))
  }

  /** There is an initial selection iff the lines span at least two
      months; it compares months, the earlier one first, both present in the
      lines, the later one the newest month and the earlier one newer than
      every other month. */
  lemma InitialPeriodsSpec(data: seq<Order>)
    ensures GetInitialPeriods(data).None? <==> |AvailableKeys(data, Month)| < 2
    ensures GetInitialPeriods(data).Some? ==>
              var s := GetInitialPeriods(data).value;
              && s.periodType == Month && s.customRange == Some(EmptyRange)
              && LexLess(s.period1, s.period2)
              && s.period1 in AvailableKeys(data, Month) && s.period2 in AvailableKeys(data, Month)
              && (forall k ::
                    k in AvailableKeys(data, Month) && k != s.period1 && k != s.period2 ==> LexLess(k, s.period1))
  {
    var months := AvailableKeys(data, Month);
    if |data| == 0 {
      assert data == [];
      AvailableEmpty(Month);
    } else if |months| >= 2 {
      assert GetInitialPeriods(data)
             == Some(Selection(Month, months[|months| - 2], months[|months| - 1], Some(EmptyRange)));
      AvailableKeysSorted(data, Month);
      StrictlySortedLastTwo(months);
    }
  }
}
