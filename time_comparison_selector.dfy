/** The custom-range inputs: a local copy of the four bounds, edited one
    field at a time, handed to the dashboard only once the two ranges are
    complete and in chronological order, and re-read from the dashboard's
    selection whenever that changes. */
module TimeComparisonSelector {
  import opened Common
  import opened Text
  import opened Dates
  import opened TimeComparison
  import opened OrderAnalysis

  /** The four inputs. */
  datatype Field = Start1 | End1 | Start2 | End2

  function Get(r: CustomRange, f: Field): string {
    match f
    case Start1 => r.start1
    case End1 => r.end1
    case Start2 => r.start2
    case End2 => r.end2
  }

  /** `{ ...customInput, [field]: value }`: that field takes the value and
      the three others keep theirs. */
  function WithField(r: CustomRange, f: Field, value: string): (n: CustomRange)
    ensures Get(n, f) == value
    ensures forall g :: g != f ==> Get(n, g) == Get(r, g)
  {
    match f
    case Start1 => r.(start1 := value)
    case End1 => r.(end1 := value)
    case Start2 => r.(start2 := value)
    case End2 => r.(end2 := value)
  }

  /** Writing back a field's own value changes nothing. */
  lemma WithFieldSame(r: CustomRange, f: Field)
    ensures WithField(r, f, Get(r, f)) == r
  {
    var n := WithField(r, f, Get(r, f));
    assert Get(n, Start1) == Get(r, Start1) && Get(n, End1) == Get(r, End1);
    assert Get(n, Start2) == Get(r, Start2) && Get(n, End2) == Get(r, End2);
  }

  /** The bound `customRange?.<field>` reads: missing without a range. */
  function Bound(customRange: Option<CustomRange>, f: Field): Option<string> {
    match customRange
    case Some(r) => Some(Get(r, f))
    case None => None
  }

  /** `x || ''` on a string that may be missing. */
  function OrEmpty(v: Option<string>): string {
    if v.None? || v.value == "" then "" else v.value
  }

  /** The local input read from the dashboard's range: every missing bound
      becomes the empty string, and a range that is present is copied as it
      is. */
  function InputFrom(customRange: Option<CustomRange>): (r: CustomRange)
    ensures customRange.None? ==> r == EmptyRange
    ensures customRange.Some? ==> r == customRange.value
  {
    CustomRange(OrEmpty(Bound(customRange, Start1)), OrEmpty(Bound(customRange, End1)),
                OrEmpty(Bound(customRange, Start2)), OrEmpty(Bound(customRange, End2)))
  }

  /** All four inputs are filled in. */
  predicate Complete(r: CustomRange) {
    r.start1 != "" && r.end1 != "" && r.start2 != "" && r.end2 != ""
  }

  /** `start1 <= end1 && start2 <= end2 && end1 < start2` on `new Date`
      values: every comparison with an invalid date is false. */
  predicate Ordered(r: CustomRange) {
    var s1, e1, s2, e2 := DateValue(r.start1), DateValue(r.end1), DateValue(r.start2), DateValue(r.end2);
    NotAfter(s1, e1) && NotAfter(s2, e2) && After(s2, e1)
  }

  /** The guard in front of the callback. */
  predicate Accepted(r: CustomRange) {
    Complete(r) && Ordered(r)
  }

  /** A range is handed on iff its four bounds are valid dates, the first
      range ends no earlier than it starts, the second starts strictly after
      the first ends, and the second ends no earlier than it starts. The
      emptiness test adds nothing: an empty bound is never a valid date. */
  lemma AcceptedSpec(r: CustomRange)
    ensures Accepted(r) <==>
              var s1, e1, s2, e2 := DateValue(r.start1), DateValue(r.end1), DateValue(r.start2), DateValue(r.end2);
              && s1.Some? && e1.Some? && s2.Some? && e2.Some?
              && s1.value <= e1.value < s2.value <= e2.value
    ensures Ordered(r) ==> Complete(r)
  {
  }

  /** A range handed on never puts a line in both compared periods. */
  lemma AcceptedDisjoint(data: seq<Order>, sel: Selection, r: CustomRange, o: Order)
    requires Accepted(r)
    ensures var next := sel.(periodType := Custom, customRange := Some(r));
            !(o in PeriodData(data, next, First) && o in PeriodData(data, next, Second))
  {
    var next := sel.(periodType := Custom, customRange := Some(r));
    PeriodDataHas(data, next, First, o);
    PeriodDataHas(data, next, Second, o);
    AcceptedSpec(r);
    ParseDateAgrees(r.end1);
    ParseDateAgrees(r.start2);
  }

  /** The component's local state. */
  class Selector {
    var customInput: CustomRange

    /** The first render reads the dashboard's range. */
    constructor(customRange: Option<CustomRange>)
      ensures customInput == InputFrom(customRange)
    {
      customInput := InputFrom(customRange);
    }

    /** The effect that re-reads the dashboard's range when it changes. */
    method Resync(customRange: Option<CustomRange>)
      modifies this
      ensures customInput == InputFrom(customRange)
    {
      customInput := InputFrom(customRange);
    }

    /** `handleCustomDateChange`: the edit always reaches the local input;
        the callback receives exactly the new input, and only when the
        guard lets it through. */
    method HandleCustomDateChange(field: Field, value: string) returns (fired: Option<CustomRange>)
      modifies this
      ensures customInput == WithField(old(customInput), field, value)
      ensures fired.Some? <==> Accepted(customInput)
      ensures fired.Some? ==> fired.value == customInput
    {
      var newInput := WithField(customInput, field, value);
      customInput := newInput;
      fired := None;
      if newInput.start1 != "" && newInput.end1 != "" && newInput.start2 != "" && newInput.end2 != "" {
        var start1Date := DateValue(newInput.start1);
        var end1Date := DateValue(newInput.end1);
        var start2Date := DateValue(newInput.start2);
        var end2Date := DateValue(newInput.end2);
        if NotAfter(start1Date, end1Date) && NotAfter(start2Date, end2Date) && After(start2Date, end1Date) {
          fired := Some(newInput);
        }
      }
    }
  }
}
