/** The dashboard's state: the loaded order lines and the selection of the
    two compared periods, with the handlers that change the granularity,
    the periods and the custom range, and the update that follows a
    successful CSV read. */
module AppState {
  import opened Common
  import opened Text
  import opened Dates
  import opened TimeComparison
  import opened ParseData
  import opened OrderAnalysis

  /** The selection before any file is read: months, no periods, four empty
      custom bounds. */
  const InitialSelection := Selection(Month, "", "", Some(EmptyRange))

  /** `availablePeriods[`${type}s`]`. */
  function PeriodsOfType(p: AvailablePeriods, t: PeriodType): seq<string>
    requires t != Custom
  {
    match t
    case Week => p.weeks
    case Month => p.months
    case Quarter => p.quarters
    case Year => p.years
  }

  /** The list kept for a granularity is that granularity's keys. */
  lemma PeriodsOfTypeAvailable(data: seq<Order>, t: PeriodType)
    requires t != Custom
    ensures PeriodsOfType(AvailableOf(data), t) == AvailableKeys(data, t)
  {
  }

  // ---------------------------------------------------------------------
  // The transitions, as functions of the selection
  // ---------------------------------------------------------------------

  /** `handlePeriodTypeChange`: custom keeps the periods and clears the four
      bounds; another granularity takes its last two available periods and
      drops the range, and changes nothing when fewer than two exist. */
  function TypeChanged(sel: Selection, data: seq<Order>, t: PeriodType): Selection {
    if t == Custom then sel.(periodType := Custom, customRange := Some(EmptyRange))
    else LastTwoOf(sel, t, PeriodsOfType(AvailableOf(data), t))
  }

  /** The last two of `periods` at granularity `t`, without a range, or
      `sel` unchanged when there are fewer than two. */
  function LastTwoOf(sel: Selection, t: PeriodType, periods: seq<string>): Selection {
    if |periods| >= 2 then Selection(t, periods[|periods| - 2], periods[|periods| - 1], None)
    else sel
  }

  /** `handlePeriodChange`. */
  function PeriodsChanged(sel: Selection, period1: string, period2: string): Selection {
    sel.(period1 := period1, period2 := period2)
  }

  /** `handleCustomRangeChange`. */
  function CustomRangeChanged(sel: Selection, customRange: CustomRange): Selection {
    sel.(periodType := Custom, customRange := Some(customRange))
  }

  /** The selection after a successful read: the initial periods of the new
      lines, or the previous selection when there are none. */
  function SelectionAfterParse(sel: Selection, parsed: seq<Order>): Selection {
    match GetInitialPeriods(parsed)
    case Some(initial) => initial
    case None => sel
  }

  // ---------------------------------------------------------------------
  // What the transitions mean for the compared slices
  // ---------------------------------------------------------------------

  /** Before any file is read both compared slices are empty, whatever the
      lines: no month key is the empty string. */
  lemma InitialSlicesEmpty(data: seq<Order>, side: Side)
    ensures PeriodData(data, InitialSelection, side) == []
  {
    var slice := PeriodData(data, InitialSelection, side);
    if |slice| > 0 {
      var o := slice[0];
      PeriodDataHas(data, InitialSelection, side, o);
      assert false;
    }
  }

  /** A period that is a key of some line at the selected granularity
      leaves that side's slice non-empty. */
  lemma KeySliceNonEmpty(data: seq<Order>, sel: Selection, side: Side)
    requires sel.periodType != Custom
    requires PeriodOf(sel, side) in AvailableKeys(data, sel.periodType)
    ensures |PeriodData(data, sel, side)| > 0
  {
    AvailableKeysSpec(data, sel.periodType, PeriodOf(sel, side));
    var i :| 0 <= i < |data| && LineKey(data[i], sel.periodType) == Some(PeriodOf(sel, side));
    PeriodDataHas(data, sel, side, data[i]);
  }

  /** Choosing custom keeps the periods, clears the bounds and so empties
      both slices until a range is entered. */
  lemma TypeChangedToCustom(sel: Selection, data: seq<Order>, side: Side)
    ensures TypeChanged(sel, data, Custom).periodType == Custom
    ensures TypeChanged(sel, data, Custom).period1 == sel.period1
    ensures TypeChanged(sel, data, Custom).period2 == sel.period2
    ensures TypeChanged(sel, data, Custom).customRange == Some(EmptyRange)
    ensures PeriodData(data, TypeChanged(sel, data, Custom), side) == []
  {
    var r := TypeChanged(sel, data, Custom);
    var slice := PeriodData(data, r, side);
    if |slice| > 0 {
      PeriodDataHas(data, r, side, slice[0]);
      assert false;
    }
  }

  /** Choosing a week, month, quarter or year granularity with fewer than
      two periods available changes nothing, the type included. */
  lemma TypeChangedTooFew(sel: Selection, data: seq<Order>, t: PeriodType)
    requires t != Custom && |AvailableKeys(data, t)| < 2
    ensures TypeChanged(sel, data, t) == sel
  {
    TypeChangedIs(sel, data, t);
  }

  /** With two or more periods available, choosing that granularity
      compares the two newest, older first, drops the range, and every
      other available period is older than both. */
  lemma TypeChangedToKey(sel: Selection, data: seq<Order>, t: PeriodType)
    requires t != Custom && |AvailableKeys(data, t)| >= 2
    ensures var r := TypeChanged(sel, data, t);
            var ks := AvailableKeys(data, t);
            && r.periodType == t && r.customRange.None?
            && r.period1 in ks && r.period2 in ks && LexLess(r.period1, r.period2)
            && (forall k :: k in ks && k != r.period1 && k != r.period2 ==> LexLess(k, r.period1))
  {
    TypeChangedIs(sel, data, t);
    AvailableKeysSorted(data, t);
    LastTwoSelected(sel, t, AvailableKeys(data, t));
  }

  /** Selecting the last two of strictly sorted periods selects the two
      newest, older first. */
  lemma LastTwoSelected(sel: Selection, t: PeriodType, ks: seq<string>)
    requires StrictlySorted(ks) && |ks| >= 2
    ensures var r := LastTwoOf(sel, t, ks);
            && r.periodType == t && r.customRange.None?
            && r.period1 in ks && r.period2 in ks && LexLess(r.period1, r.period2)
            && (forall k :: k in ks && k != r.period1 && k != r.period2 ==> LexLess(k, r.period1))
  {
    StrictlySortedLastTwo(ks);
  }

  /** A change to a granularity selects from its available periods. */
  lemma TypeChangedIs(sel: Selection, data: seq<Order>, t: PeriodType)
    requires t != Custom
    ensures TypeChanged(sel, data, t) == LastTwoOf(sel, t, AvailableKeys(data, t))
  {
    PeriodsOfTypeAvailable(data, t);
  }

  /** After choosing a granularity with two or more periods, both compared
      slices hold lines. */
  lemma TypeChangedSlices(sel: Selection, data: seq<Order>, t: PeriodType)
    requires t != Custom && |AvailableKeys(data, t)| >= 2
    ensures |PeriodData(data, TypeChanged(sel, data, t), First)| > 0
    ensures |PeriodData(data, TypeChanged(sel, data, t), Second)| > 0
  {
    var r := TypeChanged(sel, data, t);
    TypeChangedToKey(sel, data, t);
    KeySliceNonEmpty(data, r, First);
    KeySliceNonEmpty(data, r, Second);
  }

  /** Changing the periods affects the slices only outside a custom range:
      with a custom range set the slices stay those of the range; otherwise
      they become those of the new periods. */
  lemma PeriodsChangedSlices(data: seq<Order>, sel: Selection, period1: string, period2: string, side: Side)
    ensures PeriodsChanged(sel, period1, period2).periodType == sel.periodType
    ensures PeriodsChanged(sel, period1, period2).customRange == sel.customRange
    ensures sel.periodType == Custom && sel.customRange.Some? ==>
              PeriodData(data, PeriodsChanged(sel, period1, period2), side) == PeriodData(data, sel, side)
    ensures !(sel.periodType == Custom && sel.customRange.Some?) ==>
              PeriodData(data, PeriodsChanged(sel, period1, period2), side)
              == FilterDataByPeriod(data, sel.periodType, if side == First then period1 else period2, None)
  {
  }

  /** Entering a custom range switches to custom and slices each side by
      its bounds, keeping the periods for a later switch back. */
  lemma CustomRangeChangedSlices(data: seq<Order>, sel: Selection, r: CustomRange)
    ensures CustomRangeChanged(sel, r).period1 == sel.period1
    ensures CustomRangeChanged(sel, r).period2 == sel.period2
    ensures PeriodData(data, CustomRangeChanged(sel, r), First)
            == FilterDataByPeriod(data, Custom, "", Some(DateRange(r.start1, r.end1)))
    ensures PeriodData(data, CustomRangeChanged(sel, r), Second)
            == FilterDataByPeriod(data, Custom, "", Some(DateRange(r.start2, r.end2)))
  {
  }

  /** After a read, the selection is unchanged when the lines span fewer
      than two months; otherwise it compares the two newest months and both
      slices hold lines. */
  lemma SelectionAfterParseSpec(sel: Selection, parsed: seq<Order>)
    ensures |AvailableKeys(parsed, Month)| < 2 ==> SelectionAfterParse(sel, parsed) == sel
    ensures |AvailableKeys(parsed, Month)| >= 2 ==>
              var r := SelectionAfterParse(sel, parsed);
              && r == GetInitialPeriods(parsed).value
              && |PeriodData(parsed, r, First)| > 0 && |PeriodData(parsed, r, Second)| > 0
  {
    InitialPeriodsSpec(parsed);
    if |AvailableKeys(parsed, Month)| >= 2 {
      var r := SelectionAfterParse(sel, parsed);
      KeySliceNonEmpty(parsed, r, First);
      KeySliceNonEmpty(parsed, r, Second);
    }
  }

  /** `handlePeriodTypeChange`'s update of the selection: the list of
      available periods is computed afresh from the lines. */
  method NextSelection(sel: Selection, data: seq<Order>, t: PeriodType) returns (r: Selection)
    ensures r == TypeChanged(sel, data, t)
  {
    if t == Custom {
      r := sel.(periodType := t, customRange := Some(EmptyRange));
    } else {
      var availablePeriods := GetAvailablePeriods(data);
      var periods := PeriodsOfType(availablePeriods, t);
      assert periods == PeriodsOfType(AvailableOf(data), t);
      if |periods| >= 2 {
        r := Selection(t, periods[|periods| - 2], periods[|periods| - 1], None);
      } else {
        r := sel;
      }
    }
  }

  // ---------------------------------------------------------------------
  // The component
  // ---------------------------------------------------------------------

  /** The `App` component's state. */
  class App {
    var data: seq<Order>
    var selectedPeriods: Selection

    constructor()
      ensures data == [] && selectedPeriods == InitialSelection
    {
      data := [];
      selectedPeriods := InitialSelection;
    }

    method HandlePeriodTypeChange(t: PeriodType)
      modifies this
      ensures data == old(data)
      ensures selectedPeriods == TypeChanged(old(selectedPeriods), data, t)
    {
      selectedPeriods := NextSelection(selectedPeriods, data, t);
    }

    method HandlePeriodChange(period1: string, period2: string)
      modifies this
      ensures data == old(data)
      ensures selectedPeriods == PeriodsChanged(old(selectedPeriods), period1, period2)
    {
      selectedPeriods := selectedPeriods.(period1 := period1, period2 := period2);
    }

    method HandleCustomRangeChange(customRange: CustomRange)
      modifies this
      ensures data == old(data)
      ensures selectedPeriods == CustomRangeChanged(old(selectedPeriods), customRange)
    {
      selectedPeriods := selectedPeriods.(periodType := Custom, customRange := Some(customRange));
    }

    /** The file reader's `onload`: a failed read raises the alert and
      changes nothing; a successful one stores the lines and moves the
      selection to their initial periods, if any. */
    method HandleFileLoaded(text: string, mapping: ColumnMapping) returns (alerted: bool)
      modifies this
      ensures ParseCSVData(text, mapping).Err? ==>
                alerted && data == old(data) && selectedPeriods == old(selectedPeriods)
      ensures ParseCSVData(text, mapping).Ok? ==>
                !alerted && data == ParseCSVData(text, mapping).value
                && selectedPeriods == SelectionAfterParse(old(selectedPeriods), data)
    {
      match ParseCSVData(text, mapping)
      case Err(_) =>
        alerted := true;
      case Ok(parsedData) =>
        data := parsedData;
        var initialPeriods := GetInitialPeriods(parsedData);
        if initialPeriods.Some? {
          selectedPeriods := initialPeriods.value;
        }
        alerted := false;
    }
  }
}
