/** Calendar dates as the engine sees them: day-first and ISO parsing,
    `yyyy-MM-dd` rendering, and the week, month, quarter and year keys that
    name reporting periods. A date is a proleptic Gregorian (year, month,
    day) triple; its day number counts days from 0001-01-01, a Monday. */
module Dates {
  import opened Common
  import opened Text

  datatype Date = Date(year: int, month: int, day: int)

  /** The granularities a period can be chosen at. */
  datatype PeriodType = Week | Month | Quarter | Year | Custom

  predicate IsLeapYear(y: int) { (y % 4 == 0 && y % 100 != 0) || y % 400 == 0 }

  function DaysInMonth(y: int, m: int): (n: int)
    requires 1 <= m <= 12
    ensures 28 <= n <= 31
  {
    if m == 2 then (if IsLeapYear(y) then 29 else 28)
    else if m == 4 || m == 6 || m == 9 || m == 11 then 30
    else 31
  }

  predicate ValidDate(d: Date) {
    1 <= d.month <= 12 && 1 <= d.day <= DaysInMonth(d.year, d.month)
  }

  function DaysInYear(y: int): int { if IsLeapYear(y) then 366 else 365 }

  /** Days from 0001-01-01 to the first day of year `y`. */
  function DaysBeforeYear(y: int): int {
    var p := y - 1;
    365 * p + p / 4 - p / 100 + p / 400
  }

  /** Days from the first of the year to the first of month `m` (13 = next year). */
  function DaysBeforeMonth(y: int, m: int): int
    requires 1 <= m <= 13
  {
    (if m > 2 && IsLeapYear(y) then 1 else 0) + CommonDaysBefore(m)
  }

  /** Days before month `m` in a common year. */
  function CommonDaysBefore(m: int): int {
    if m <= 1 then 0 else if m == 2 then 31 else if m == 3 then 59
    else if m == 4 then 90 else if m == 5 then 120 else if m == 6 then 151
    else if m == 7 then 181 else if m == 8 then 212 else if m == 9 then 243
    else if m == 10 then 273 else if m == 11 then 304 else if m == 12 then 334
    else 365
  }

  function DayNumber(d: Date): int
    requires 1 <= d.month <= 12
  {
    DaysBeforeYear(d.year) + DaysBeforeMonth(d.year, d.month) + d.day - 1
  }

  lemma DaysBeforeYearNext(y: int)
    ensures DaysBeforeYear(y + 1) == DaysBeforeYear(y) + DaysInYear(y)
  {
    var p := y - 1;
    assert DaysBeforeYear(y + 1) == 365 * y + y / 4 - y / 100 + y / 400;
    assert DaysBeforeYear(y) == 365 * p + p / 4 - p / 100 + p / 400;
    DivStep4(y);
    DivStep100(y);
    DivStep400(y);
  }

  lemma DivStep4(y: int)
    ensures y / 4 == (y - 1) / 4 + (if y % 4 == 0 then 1 else 0)
  {}

  lemma DivStep100(y: int)
    ensures y / 100 == (y - 1) / 100 + (if y % 100 == 0 then 1 else 0)
  {}

  lemma DivStep400(y: int)
    ensures y / 400 == (y - 1) / 400 + (if y % 400 == 0 then 1 else 0)
  {}

  lemma DaysBeforeMonthNext(y: int, m: int)
    requires 1 <= m <= 12
    ensures DaysBeforeMonth(y, m + 1) == DaysBeforeMonth(y, m) + DaysInMonth(y, m)
    ensures DaysBeforeMonth(y, 13) == DaysInYear(y)
  {
  }

  /** The day after the last of a month is the first of the next month. */
  lemma MonthBoundary(d: Date)
    requires ValidDate(d) && d.day == DaysInMonth(d.year, d.month)
    ensures var next := if d.month == 12 then Date(d.year + 1, 1, 1) else Date(d.year, d.month + 1, 1);
            ValidDate(next) && DayNumber(next) == DayNumber(d) + 1
  {
    DaysBeforeMonthNext(d.year, d.month);
    DaysBeforeYearNext(d.year);
  }

  /** The following day, rolling over month and year ends. */
  function NextDay(d: Date): (r: Date)
    requires ValidDate(d)
    ensures ValidDate(r) && DayNumber(r) == DayNumber(d) + 1
  {
    if d.day < DaysInMonth(d.year, d.month) then
      SameMonthShift(d, d.day + 1);
      Date(d.year, d.month, d.day + 1)
    else
      MonthBoundary(d);
      if d.month == 12 then Date(d.year + 1, 1, 1) else Date(d.year, d.month + 1, 1)
  }

  /** The preceding day, rolling back over month and year starts. */
  function PrevDay(d: Date): (r: Date)
    requires ValidDate(d)
    ensures ValidDate(r) && DayNumber(r) == DayNumber(d) - 1
  {
    if d.day > 1 then
      SameMonthShift(d, d.day - 1);
      Date(d.year, d.month, d.day - 1)
    else
      var prev := if d.month == 1 then Date(d.year - 1, 12, 31)
                  else Date(d.year, d.month - 1, DaysInMonth(d.year, d.month - 1));
      MonthBoundary(prev);
      prev
  }

  /** Moves a date by `k` days, with `Date`'s roll-over across month and
      year ends. */
  function AddDays(d: Date, k: int): (r: Date)
    requires ValidDate(d)
    ensures ValidDate(r) && DayNumber(r) == DayNumber(d) + k
    decreases if k < 0 then -k else k
  {
    if k == 0 then d
    else if k > 0 then AddDays(NextDay(d), k - 1)
    else AddDays(PrevDay(d), k + 1)
  }

  /** Within a month, day numbers move with the day of the month. */
  lemma SameMonthShift(d: Date, day: int)
    requires 1 <= d.month <= 12
    ensures DayNumber(Date(d.year, d.month, day)) == DayNumber(d) + (day - d.day)
  {
  }

  /** Later years start strictly later. */
  lemma {:induction false} DaysBeforeYearMonotone(a: int, b: int)
    requires a < b
    ensures DaysBeforeYear(a) + DaysInYear(a) <= DaysBeforeYear(b)
    decreases b - a
  {
    DaysBeforeYearNext(a);
    if a + 1 < b {
      DaysBeforeYearMonotone(a + 1, b);
    }
  }

  /** Distinct valid dates have distinct day numbers. */
  lemma DayNumberInjective(a: Date, b: Date)
    requires ValidDate(a) && ValidDate(b) && DayNumber(a) == DayNumber(b)
    ensures a == b
  {
    DaysBeforeMonthNext(a.year, a.month);
    DaysBeforeMonthNext(b.year, b.month);
    if a.year < b.year {
      DaysBeforeYearMonotone(a.year, b.year);
      assert false;
    } else if b.year < a.year {
      DaysBeforeYearMonotone(b.year, a.year);
      assert false;
    }
    if a.month < b.month {
      MonthsMonotone(a.year, a.month, b.month);
      assert false;
    } else if b.month < a.month {
      MonthsMonotone(a.year, b.month, a.month);
      assert false;
    }
  }

  lemma MonthsMonotone(y: int, m1: int, m2: int)
    requires 1 <= m1 < m2 <= 12
    ensures DaysBeforeMonth(y, m1) + DaysInMonth(y, m1) <= DaysBeforeMonth(y, m2)
  {
  }

  /** 0 = Sunday, 1 = Monday, ..., 6 = Saturday (`getDay`). */
  function DayOfWeek(d: Date): (w: int)
    requires 1 <= d.month <= 12
    ensures 0 <= w < 7
  {
    (DayNumber(d) + 1) % 7
  }

  /** `startOfWeek(d, { weekStartsOn: 1 })`: the Monday on or before `d`. */
  function StartOfWeek(d: Date): (s: Date)
    requires ValidDate(d)
    ensures ValidDate(s) && DayOfWeek(s) == 1
    ensures DayNumber(s) <= DayNumber(d) <= DayNumber(s) + 6
  {
    var n := DayNumber(d);
    WeekStartArithmetic(n);
    AddDays(d, -(n % 7))
  }

  lemma WeekStartArithmetic(n: int)
    ensures (n - n % 7 + 1) % 7 == 1
    ensures 0 <= n % 7 <= 6
  {}

  /** Two dates share a week start iff they fall in the same Monday-to-Sunday week. */
  lemma StartOfWeekSame(a: Date, b: Date)
    requires ValidDate(a) && ValidDate(b)
    ensures StartOfWeek(a) == StartOfWeek(b) <==> DayNumber(a) / 7 == DayNumber(b) / 7
  {
    var sa, sb := StartOfWeek(a), StartOfWeek(b);
    assert DayNumber(sa) == 7 * (DayNumber(a) / 7);
    assert DayNumber(sb) == 7 * (DayNumber(b) / 7);
    if DayNumber(a) / 7 == DayNumber(b) / 7 {
      DayNumberInjective(sa, sb);
    }
  }

  /** The date `new Date(y, m0, d)` denotes: years 0 to 99 mean 1900 to 1999,
      and a month index or day outside its range rolls over into the
      neighbouring months and years. */
  function MakeDate(y: int, m0: int, d: int): (r: Date)
    ensures ValidDate(r)
    ensures var yr := if 0 <= y <= 99 then 1900 + y else y;
            DayNumber(r) == DayNumber(Date(yr + m0 / 12, m0 % 12 + 1, 1)) + d - 1
  {
    var yr := if 0 <= y <= 99 then 1900 + y else y;
    AddDays(Date(yr + m0 / 12, m0 % 12 + 1, 1), d - 1)
  }

  /** The day number of 1970-01-01, the epoch JavaScript time values count from. */
  function EpochDay(): int { DayNumber(Date(1970, 1, 1)) }

  /** A JavaScript `Date` holds a time value within 8.64e15 ms, that is
      100,000,000 days, of the epoch; a date further out has a NaN time
      value (`getTime()` is NaN). */
  predicate InTimeRange(d: Date)
    requires 1 <= d.month <= 12
  {
    -100000000 <= DayNumber(d) - EpochDay() <= 100000000
  }

  /** In range, the constructor builds the date it was given. */
  lemma MakeDateInRange(y: int, m: int, d: int)
    requires !(0 <= y <= 99) && ValidDate(Date(y, m, d))
    ensures MakeDate(y, m - 1, d) == Date(y, m, d)
  {
    var r := MakeDate(y, m - 1, d);
    assert (m - 1) / 12 == 0 && (m - 1) % 12 + 1 == m;
    assert DayNumber(r) == DayNumber(Date(y, m, 1)) + d - 1;
    SameMonthShift(Date(y, m, 1), d);
    DayNumberInjective(r, Date(y, m, d));
  }

  /** Day 31 of February rolls over into March: 31/02/2024 is 2 March 2024,
      and in a common year the same input is 3 March. */
  lemma FebruaryRollOver(y: int)
    requires !(0 <= y <= 99)
    ensures MakeDate(y, 1, 31) == if IsLeapYear(y) then Date(y, 3, 2) else Date(y, 3, 3)
  {
    var r := MakeDate(y, 1, 31);
    MakeDateFebruary(y);
    var expected := if IsLeapYear(y) then Date(y, 3, 2) else Date(y, 3, 3);
    MarchAfterFebruary(y);
    DayNumberInjective(r, expected);
  }

  lemma MakeDateFebruary(y: int)
    requires !(0 <= y <= 99)
    ensures DayNumber(MakeDate(y, 1, 31)) == DayNumber(Date(y, 2, 1)) + 30
  {
    assert 1 / 12 == 0 && 1 % 12 + 1 == 2;
  }

  lemma MarchAfterFebruary(y: int)
    ensures DayNumber(if IsLeapYear(y) then Date(y, 3, 2) else Date(y, 3, 3)) == DayNumber(Date(y, 2, 1)) + 30
  {
  }

  /** `new Date(s)` on a date-only ISO string: exactly `YYYY-MM-DD` naming a
      real calendar day, else an invalid date (`None`). */
  function ParseIso(s: string): (r: Option<Date>)
    ensures r.Some? ==> ValidDate(r.value)
  {
    if |s| == 10 && s[4] == '-' && s[7] == '-'
       && AllDigits(s[..4]) && AllDigits(s[5..7]) && AllDigits(s[8..])
    then
      var d := Date(DigitsValue(s[..4]), DigitsValue(s[5..7]), DigitsValue(s[8..]));
      if 1 <= d.month <= 12 && 1 <= d.day <= DaysInMonth(d.year, d.month) then Some(d) else None
    else None
  }

  /** `parseDate`: a string with a `/` is read as day/month/year (see
      `ParseDayFirst`); any other string is read as an ISO date. A failure
      is reported as "Invalid date format: " followed by the input. */
  function ParseDate(s: string): (r: Result<Date>)
    ensures r.Ok? ==> ValidDate(r.value)
    ensures r.Err? ==> r.message == "Invalid date format: " + s
  {
    if Includes(s, "/") then ParseDayFirst(s)
    else
      match ParseIso(s)
      case Some(d) => Ok(d)
      case None => Err("Invalid date format: " + s)
  }

  /** A string `new Date` reads as an ISO date holds no "/", so `parseDate`
      reads it the same way. */
  lemma ParseDateAgrees(s: string)
    requires ParseIso(s).Some?
    ensures ParseDate(s) == Ok(ParseIso(s).value)
  {
    forall i | 0 <= i < |s| ensures s[i] != '/' {
      if i < 4 {
        assert s[..4][i] == s[i];
      } else if 5 <= i < 7 {
        assert s[5..7][i - 5] == s[i];
      } else if 8 <= i {
        assert s[8..][i - 8] == s[i];
      }
    }
    NotIncludes(s, "/");
  }

  /** The day/month/year branch of `parseDate`, through the `Date`
      constructor: fewer than three parts, a leading part that is not a
      number, or a date outside the range a `Date` can hold fails. */
  function ParseDayFirst(s: string): (r: Result<Date>)
    ensures r.Ok? ==> ValidDate(r.value)
    ensures r.Err? ==> r.message == "Invalid date format: " + s
  {
    DayFirstOf(Split(s, "/"), s)
  }

  /** The day/month/year branch on the parts of `s` split at "/". */
  function DayFirstOf(parts: seq<string>, s: string): Result<Date> {
    if |parts| < 3 then Err("Invalid date format: " + s)
    else
      var day, month, year := ToNumber(parts[0]), ToNumber(parts[1]), ToNumber(parts[2]);
      if day.Some? && month.Some? && year.Some? && InTimeRange(MakeDate(year.value, month.value - 1, day.value))
      then Ok(MakeDate(year.value, month.value - 1, day.value))
      else Err("Invalid date format: " + s)
  }

  /** The year date-fns prints for `yyyy`: the era year, so year 0 is 1 BC. */
  function EraYear(y: int): (e: nat)
    ensures e >= 1
  {
    if y > 0 then y else 1 - y
  }

  /** `format(d, 'yyyy-MM-dd')`. */
  function FormatDate(d: Date): string
    requires ValidDate(d)
  {
    PadNat(EraYear(d.year), 4) + "-" + PadNat(d.month, 2) + "-" + PadNat(d.day, 2)
  }

  /** The local `formatDate` of the CSV reader: the signed, unpadded year,
      then the zero-padded month and day. */
  function FormatLocal(d: Date): string
    requires ValidDate(d)
  {
    IntToString(d.year) + "-" + PadNat(d.month, 2) + "-" + PadNat(d.day, 2)
  }

  /** `format(d, 'yyyy-MM')`. */
  function MonthKey(d: Date): string
    requires ValidDate(d)
  {
    PadNat(EraYear(d.year), 4) + "-" + PadNat(d.month, 2)
  }

  /** The quarter of a month, 1 to 4. */
  function QuarterOf(m: int): (q: int)
    requires 1 <= m <= 12
    ensures 1 <= q <= 4
  {
    (m - 1) / 3 + 1
  }

  /** `<year>-Q<quarter>` with the signed, unpadded year. */
  function QuarterKey(d: Date): string
    requires ValidDate(d)
  {
    IntToString(d.year) + "-Q" + NatToString(QuarterOf(d.month))
  }

  /** `format(d, 'yyyy')`. */
  function YearKey(d: Date): string
    requires ValidDate(d)
  {
    PadNat(EraYear(d.year), 4)
  }

  /** The `yyyy-MM-dd` rendering of the Monday that starts the date's week. */
  function WeekKey(d: Date): string
    requires ValidDate(d)
  {
    FormatDate(StartOfWeek(d))
  }

  /** The key of a date at one granularity; a custom range has none. */
  function PeriodKey(t: PeriodType, d: Date): Option<string>
    requires ValidDate(d)
  {
    match t
    case Week => Some(WeekKey(d))
    case Month => Some(MonthKey(d))
    case Quarter => Some(QuarterKey(d))
    case Year => Some(YearKey(d))
    case Custom => None
  }

  /** The month key built by hand from `getFullYear` and `getMonth` on
      `new Date(s)`: an unparseable string gives "NaN-NaN". */
  function JsMonthKey(s: string): string {
    match ParseIso(s)
    case Some(d) => IntToString(d.year) + "-" + PadNat(d.month, 2)
    case None => "NaN-NaN"
  }

  /** `new Date(s)` as a day count; `None` is an invalid date (NaN). */
  function DateValue(s: string): Option<int> {
    match ParseIso(s)
    case Some(d) => Some(DayNumber(d))
    case None => None
  }

  /** `a > b` on two dates: false when either is invalid. */
  predicate After(a: Option<int>, b: Option<int>) {
    a.Some? && b.Some? && a.value > b.value
  }

  /** `a <= b` on two dates: false when either is invalid. */
  predicate NotAfter(a: Option<int>, b: Option<int>) {
    a.Some? && b.Some? && a.value <= b.value
  }

  /** A date-only string with a two-digit month and day renders as ten characters. */
  lemma PadNatTwo(n: nat)
    requires n < 100
    ensures |PadNat(n, 2)| == 2
  {
    PadNatLength(n, 2);
  }

  /** `yyyy-MM-dd` reads back as the same date, for years 1 to 9999. */
  lemma FormatDateRoundTrip(d: Date)
    requires ValidDate(d) && 1 <= d.year <= 9999
    ensures ParseIso(FormatDate(d)) == Some(d)
  {
    var e := EraYear(d.year);
    assert e == d.year;
    PadFieldsRoundTrip(d, PadNat(e, 4));
  }

  /** The CSV reader's rendering reads back as the same date for four-digit years. */
  lemma FormatLocalRoundTrip(d: Date)
    requires ValidDate(d) && 1000 <= d.year <= 9999
    ensures ParseIso(FormatLocal(d)) == Some(d)
  {
    NatToStringLength(d.year, 4);
    assert Pow10(3) == 1000;
    NatToStringLongEnough(d.year, 3);
    assert PadNat(d.year, 4) == NatToString(d.year);
    PadFieldsRoundTrip(d, PadNat(d.year, 4));
  }

  lemma PadFieldsRoundTrip(d: Date, ys: string)
    requires ValidDate(d) && 1 <= d.year <= 9999 && ys == PadNat(d.year, 4)
    ensures ParseIso(ys + "-" + PadNat(d.month, 2) + "-" + PadNat(d.day, 2)) == Some(d)
  {
    PadNatLength(d.year, 4);
    PadNatTwo(d.month);
    PadNatTwo(d.day);
    PadNatValue(d.year, 4);
    PadNatValue(d.month, 2);
    PadNatValue(d.day, 2);
    ParseIsoFields(ys, PadNat(d.month, 2), PadNat(d.day, 2), d);
  }

  lemma ParseIsoFields(ys: string, ms: string, ds: string, d: Date)
    requires |ys| == 4 && |ms| == 2 && |ds| == 2
    requires AllDigits(ys) && AllDigits(ms) && AllDigits(ds)
    requires DigitsValue(ys) == d.year && DigitsValue(ms) == d.month && DigitsValue(ds) == d.day
    requires ValidDate(d)
    ensures ParseIso(ys + "-" + ms + "-" + ds) == Some(d)
  {
    var s := ys + "-" + ms + "-" + ds;
    IsoSlices(ys, ms, ds);
    assert ParseIso(s) == Some(Date(DigitsValue(ys), DigitsValue(ms), DigitsValue(ds)));
  }

  lemma IsoSlices(ys: string, ms: string, ds: string)
    requires |ys| == 4 && |ms| == 2 && |ds| == 2
    ensures var s := ys + "-" + ms + "-" + ds;
            |s| == 10 && s[4] == '-' && s[7] == '-' && s[..4] == ys && s[5..7] == ms && s[8..] == ds
  {
  }

  /** A four-digit zero-padded year, a dash and a two-digit field split
      apart again. */
  lemma KeyParts(a: string, b: string, c: string, d: string)
    requires |b| == 2 && |d| == 2
    requires a + "-" + b == c + "-" + d
    ensures a == c && b == d
  {
    var s := a + "-" + b;
    assert |a| == |c|;
    assert a == s[..|a|] && c == s[..|c|];
    assert b == s[|a| + 1..] && d == s[|c| + 1..];
  }

  /** Two dates have the same month key iff they have the same era year and month. */
  lemma MonthKeySame(a: Date, b: Date)
    requires ValidDate(a) && ValidDate(b)
    ensures MonthKey(a) == MonthKey(b) <==> EraYear(a.year) == EraYear(b.year) && a.month == b.month
  {
    PadNatTwo(a.month);
    PadNatTwo(b.month);
    if MonthKey(a) == MonthKey(b) {
      KeyParts(PadNat(EraYear(a.year), 4), PadNat(a.month, 2), PadNat(EraYear(b.year), 4), PadNat(b.month, 2));
      PadNatInjective(EraYear(a.year), EraYear(b.year), 4);
      PadNatInjective(a.month, b.month, 2);
    }
  }

  /** For years after 0 the month key tells the calendar month exactly. */
  lemma MonthKeySamePositive(a: Date, b: Date)
    requires ValidDate(a) && ValidDate(b) && a.year > 0 && b.year > 0
    ensures MonthKey(a) == MonthKey(b) <==> a.year == b.year && a.month == b.month
  {
    MonthKeySame(a, b);
  }

  /** Two dates have the same quarter key iff they have the same year and quarter. */
  lemma QuarterKeySame(a: Date, b: Date)
    requires ValidDate(a) && ValidDate(b)
    ensures QuarterKey(a) == QuarterKey(b) <==> a.year == b.year && QuarterOf(a.month) == QuarterOf(b.month)
  {
    var qa, qb := NatToString(QuarterOf(a.month)), NatToString(QuarterOf(b.month));
    NatToStringLength(QuarterOf(a.month), 1);
    NatToStringLength(QuarterOf(b.month), 1);
    if QuarterKey(a) == QuarterKey(b) {
      var ya, yb := IntToString(a.year), IntToString(b.year);
      var s := QuarterKey(a);
      assert s == ya + "-Q" + qa && s == yb + "-Q" + qb;
      assert |ya| == |yb|;
      assert ya == s[..|ya|] && yb == s[..|yb|];
      assert qa == s[|ya| + 2..] && qb == s[|yb| + 2..];
      ParseIntIntToString(a.year);
      ParseIntIntToString(b.year);
      NatToStringInjective(QuarterOf(a.month), QuarterOf(b.month));
    }
  }

  /** The year key depends on the (era) year alone. */
  lemma YearKeySame(a: Date, b: Date)
    requires ValidDate(a) && ValidDate(b)
    ensures YearKey(a) == YearKey(b) <==> EraYear(a.year) == EraYear(b.year)
  {
    if YearKey(a) == YearKey(b) {
      PadNatInjective(EraYear(a.year), EraYear(b.year), 4);
    }
  }

  /** Dates in the same Monday-to-Sunday week share a week key. */
  lemma WeekKeySameWeek(a: Date, b: Date)
    requires ValidDate(a) && ValidDate(b) && DayNumber(a) / 7 == DayNumber(b) / 7
    ensures WeekKey(a) == WeekKey(b)
  {
    StartOfWeekSame(a, b);
  }

  function FullMonthName(m: int): string
    requires 1 <= m <= 12
  {
    if m == 1 then "January"
    else if m == 2 then "February"
    else if m == 3 then "March"
    else if m == 4 then "April"
    else if m == 5 then "May"
    else if m == 6 then "June"
    else if m == 7 then "July"
    else if m == 8 then "August"
    else if m == 9 then "September"
    else if m == 10 then "October"
    else if m == 11 then "November"
    else "December"
  }

  function ShortMonthName(m: int): string
    requires 1 <= m <= 12
  {
    if m == 1 then "Jan"
    else if m == 2 then "Feb"
    else if m == 3 then "Mar"
    else if m == 4 then "Apr"
    else if m == 5 then "May"
    else if m == 6 then "Jun"
    else if m == 7 then "Jul"
    else if m == 8 then "Aug"
    else if m == 9 then "Sep"
    else if m == 10 then "Oct"
    else if m == 11 then "Nov"
    else "Dec"
  }

  /** `formatWeekRange`: "MMM d - MMM d, yyyy" from the Monday to the Sunday. */
  function FormatWeekRange(d: Date): string
    requires ValidDate(d)
  {
    var s := StartOfWeek(d);
    var e := AddDays(s, 6);
    ShortMonthName(s.month) + " " + NatToString(s.day) + " - "
    + ShortMonthName(e.month) + " " + NatToString(e.day) + ", " + PadNat(EraYear(e.year), 4)
  }

  /** `formatPeriod`: the label shown for a period key. A week key that does
      not parse gives "Invalid Week Range"; a month key without a dash or
      with a part that is not a number gives "Invalid Period"; a quarter key
      without "-Q" shows "undefined" for the quarter; year and custom values
      are shown as they are. */
  function FormatPeriod(t: PeriodType, value: string): string {
    match t
    case Week =>
      (match ParseIso(value)
       case Some(d) => FormatWeekRange(d)
       case None => "Invalid Week Range")
    case Month => MonthLabel(value)
    case Quarter =>
      var parts := Split(value, "-Q");
      "Q" + (if |parts| >= 2 then parts[1] else "undefined") + " " + parts[0]
    case Year => value
    case Custom => value
  }

  /** The month branch of `formatPeriod`: the year and month parts, read as
      numbers, through the `Date` constructor. */
  function MonthLabel(value: string): string {
    MonthLabelOfParts(Split(value, "-"))
  }

  /** The month label on the parts of a key split at "-". */
  function MonthLabelOfParts(parts: seq<string>): string {
    if |parts| < 2 then "Invalid Period"
    else
      var y, m := ToNumber(parts[0]), ToNumber(parts[1]);
      if y.Some? && m.Some? && InTimeRange(MakeDate(y.value, m.value - 1, 1))
      then DateLabel(MakeDate(y.value, m.value - 1, 1))
      else "Invalid Period"
  }

  /** `format(d, 'MMMM yyyy')`. */
  function DateLabel(d: Date): string
    requires ValidDate(d)
  {
    FullMonthName(d.month) + " " + PadNat(EraYear(d.year), 4)
  }

  /** A leading piece free of the separator's first character splits off whole. */
  lemma SplitFirst(a: string, sep: string, rest: string)
    requires |sep| > 0 && sep[0] !in a
    ensures Split(a + sep + rest, sep) == [a] + Split(rest, sep)
    decreases |a|
  {
    if |a| == 0 {
      assert a + sep + rest == sep + rest;
      assert (sep + rest)[|sep|..] == rest;
    } else {
      var s := a + sep + rest;
      SplitFirstStep(a, sep, rest);
      SplitFirst(a[1..], sep, rest);
      var t := Split(s[1..], sep);
      assert t == [a[1..]] + Split(rest, sep);
      SplitUnfold(s, sep);
      assert t[1..] == Split(rest, sep);
      assert [a[0]] + a[1..] == a;
    }
  }

  /** Peeling the first character off a leading piece free of the separator. */
  lemma SplitFirstStep(a: string, sep: string, rest: string)
    requires |sep| > 0 && |a| > 0 && sep[0] !in a
    ensures !StartsWith(a + sep + rest, sep) && |a + sep + rest| > 0
    ensures (a + sep + rest)[0] == a[0] && (a + sep + rest)[1..] == a[1..] + sep + rest
    ensures sep[0] !in a[1..]
  {
    var s := a + sep + rest;
    if |sep| <= |s| { assert s[..|sep|][0] == a[0]; }
    assert s[1..] == a[1..] + sep + rest;
    forall i | 0 <= i < |a| - 1 ensures a[1..][i] != sep[0] {
      assert a[1..][i] == a[i + 1] && a[i + 1] in a;
    }
  }

  /** A string not opening with the separator keeps its first character
      on its first piece. */
  lemma SplitUnfold(s: string, sep: string)
    requires |sep| > 0 && |s| > 0 && !StartsWith(s, sep)
    ensures Split(s, sep) == [[s[0]] + Split(s[1..], sep)[0]] + Split(s[1..], sep)[1..]
  {
  }

  /** Splitting `a + sep + b` where neither side holds the separator's first
      character gives back the two sides. */
  lemma SplitAround(a: string, sep: string, b: string)
    requires |sep| > 0 && sep[0] !in a && sep[0] !in b
    ensures Split(a + sep + b, sep) == [a, b]
  {
    SplitFirst(a, sep, b);
    SplitNoSeparator(b, sep);
  }

  lemma SplitNoSeparator(s: string, sep: string)
    requires |sep| > 0 && sep[0] !in s
    ensures Split(s, sep) == [s]
    decreases |s|
  {
    if |s| > 0 {
      assert !StartsWith(s, sep) by {
        if |sep| <= |s| { assert s[..|sep|][0] == s[0]; }
      }
      SplitNoSeparator(s[1..], sep);
      assert [s[0]] + s[1..] == s;
    }
  }

  /** A quarter key of a year from 0 on is labelled "Q<n> <year>". */
  lemma FormatQuarterLabel(d: Date)
    requires ValidDate(d) && d.year >= 0
    ensures FormatPeriod(Quarter, QuarterKey(d)) == "Q" + NatToString(QuarterOf(d.month)) + " " + NatToString(d.year)
  {
    var ys, qs := NatToString(d.year), NatToString(QuarterOf(d.month));
    DigitsFree(ys, '-');
    DigitsFree(qs, '-');
    SplitAround(ys, "-Q", qs);
  }

  lemma DigitsFree(s: string, c: char)
    requires AllDigits(s) && !IsDigit(c)
    ensures c !in s
  {
  }

  /** A month key of a year from 100 on is labelled "<Month> <yyyy>". */
  lemma FormatMonthLabel(d: Date)
    requires ValidDate(d) && 100 <= d.year <= 275759
    ensures FormatPeriod(Month, MonthKey(d)) == FullMonthName(d.month) + " " + YearKey(d)
  {
    var parts := Split(MonthKey(d), "-");
    MonthKeyParts(d);
    PadNatValue(d.year, 4);
    PadNatValue(d.month, 2);
    ToNumberDigits(parts[0]);
    ToNumberDigits(parts[1]);
    MonthLabelOf(parts, d.year, d.month);
    MakeDateInRange(d.year, d.month, 1);
    InTimeRangeYears(Date(d.year, d.month, 1));
  }

  /** A month key of a year from 1 on splits at "-" into its padded year and
      month. */
  lemma MonthKeyParts(d: Date)
    requires ValidDate(d) && d.year >= 1
    ensures Split(MonthKey(d), "-") == [PadNat(d.year, 4), PadNat(d.month, 2)]
  {
    var ys, ms := PadNat(d.year, 4), PadNat(d.month, 2);
    assert MonthKey(d) == ys + "-" + ms;
    DigitsFree(ys, '-');
    DigitsFree(ms, '-');
    SplitAround(ys, "-", ms);
  }

  /** A month key whose two parts read as `y` and `m` is labelled by the
      date the constructor makes of them. */
  lemma MonthLabelOf(parts: seq<string>, y: int, m: int)
    requires |parts| >= 2
    requires ToNumber(parts[0]) == Some(y)
    requires ToNumber(parts[1]) == Some(m)
    ensures MonthLabelOfParts(parts)
            == if InTimeRange(MakeDate(y, m - 1, 1)) then DateLabel(MakeDate(y, m - 1, 1)) else "Invalid Period"
  {
    var r := MakeDate(y, m - 1, 1);
    assert MonthLabelOfParts(parts) == if InTimeRange(r) then DateLabel(r) else "Invalid Period";
  }

  /** Years and custom values label themselves. */
  lemma FormatYearLabel(value: string)
    ensures FormatPeriod(Year, value) == value && FormatPeriod(Custom, value) == value
  {
  }

  /** `getWeekRange`: the week key's date and the date six days later; a key
      that does not parse gives invalid dates (`None`). */
  function GetWeekRange(key: string): (r: Option<(Date, Date)>)
    ensures r.Some? ==> ValidDate(r.value.0) && ValidDate(r.value.1)
                        && DayNumber(r.value.1) == DayNumber(r.value.0) + 6
    ensures r.Some? <==> ParseIso(key).Some?
    ensures r.Some? ==> r.value.0 == ParseIso(key).value
  {
    match ParseIso(key)
    case Some(s) => Some((s, AddDays(s, 6)))
    case None => None
  }

  /** The range of a week key runs from its Monday to the following Sunday. */
  lemma WeekRangeOfKey(d: Date)
    requires ValidDate(d) && 1 <= StartOfWeek(d).year <= 9999
    ensures GetWeekRange(WeekKey(d)).Some?
    ensures GetWeekRange(WeekKey(d)).value.0 == StartOfWeek(d)
    ensures DayOfWeek(GetWeekRange(WeekKey(d)).value.1) == 0
  {
    var s := StartOfWeek(d);
    WeekKeyParses(d);
    EndOfWeekSunday(s);
  }

  /** A week key reads back as the Monday it names. */
  lemma WeekKeyParses(d: Date)
    requires ValidDate(d) && 1 <= StartOfWeek(d).year <= 9999
    ensures ParseIso(WeekKey(d)) == Some(StartOfWeek(d))
  {
    FormatDateRoundTrip(StartOfWeek(d));
  }

  lemma EndOfWeekSunday(s: Date)
    requires ValidDate(s) && DayOfWeek(s) == 1
    ensures DayOfWeek(AddDays(s, 6)) == 0
  {
    var n := DayNumber(s);
    var e := AddDays(s, 6);
    assert DayNumber(e) + 1 == n + 7;
    SundayAfterMonday(n);
  }

  lemma SundayAfterMonday(n: int)
    requires (n + 1) % 7 == 1
    ensures (n + 7) % 7 == 0
  {
  }

  /** A day-first string of a date from year 100 on, within the range a
      `Date` can hold, parses back to that date. */
  lemma ParseDateDayFirst(d: Date)
    requires ValidDate(d) && d.year >= 100 && InTimeRange(d)
    ensures ParseDate(NatToString(d.day) + "/" + NatToString(d.month) + "/" + NatToString(d.year)) == Ok(d)
  {
    var s := NatToString(d.day) + "/" + NatToString(d.month) + "/" + NatToString(d.year);
    DayFirstParses(s, d.day, d.month, d.year);
    MakeDateInRange(d.year, d.month, d.day);
  }

  /** A day-first string of a date the constructor cannot hold is
      rejected, as `parseDate` throws on an invalid `Date`. */
  lemma ParseDateDayFirstOutOfRange(d: Date, s: string)
    requires ValidDate(d) && d.year >= 100 && !InTimeRange(d)
    requires s == NatToString(d.day) + "/" + NatToString(d.month) + "/" + NatToString(d.year)
    ensures ParseDate(s) == Err("Invalid date format: " + s)
  {
    DayFirstParses(s, d.day, d.month, d.year);
    MakeDateInRange(d.year, d.month, d.day);
  }

  /** Every date of the years -271820 to 275759 lies within the range a
      `Date` can hold. */
  lemma InTimeRangeYears(d: Date)
    requires ValidDate(d) && -271820 <= d.year <= 275759
    ensures InTimeRange(d)
  {
    var p := d.year - 1;
    assert -271821 <= p <= 275758;
    assert DaysBeforeMonth(d.year, d.month) + d.day - 1 <= 365;
    assert EpochDay() == 719162;
  }

  /** The last and first days a `Date` can hold: 13 September 275760 and
      20 April -271821. */
  lemma TimeRangeEnds()
    ensures InTimeRange(Date(275760, 9, 13)) && !InTimeRange(Date(275760, 9, 14))
    ensures InTimeRange(Date(-271821, 4, 20)) && !InTimeRange(Date(-271821, 4, 19))
  {
  }

  /** A day-first rendering of three numbers goes through the constructor,
      and fails when the date it denotes is out of range. */
  lemma DayFirstParses(s: string, day: nat, month: nat, year: nat)
    requires s == NatToString(day) + "/" + NatToString(month) + "/" + NatToString(year)
    ensures ParseDate(s) == if InTimeRange(MakeDate(year, month - 1, day)) then Ok(MakeDate(year, month - 1, day))
                            else Err("Invalid date format: " + s)
  {
    DayFirstFields(s, day, month, year);
    ParseDateSlash(s, day, month, year);
  }

  /** The three rendered fields of a day-first string split apart and read
      back as numbers. */
  lemma DayFirstFields(s: string, day: nat, month: nat, year: nat)
    requires s == NatToString(day) + "/" + NatToString(month) + "/" + NatToString(year)
    ensures Includes(s, "/") && |Split(s, "/")| >= 3
    ensures ToNumber(Split(s, "/")[0]) == Some(day)
    ensures ToNumber(Split(s, "/")[1]) == Some(month)
    ensures ToNumber(Split(s, "/")[2]) == Some(year)
  {
    SplitDayFirst(NatToString(day), NatToString(month), NatToString(year));
    ToNumberNat(day);
    ToNumberNat(month);
    ToNumberNat(year);
  }

  /** A string with a `/` and three numeric leading parts is the
      constructor's date when that date is in range, and an error otherwise. */
  lemma ParseDateSlash(s: string, day: int, month: int, year: int)
    requires Includes(s, "/") && |Split(s, "/")| >= 3
    requires ToNumber(Split(s, "/")[0]) == Some(day)
    requires ToNumber(Split(s, "/")[1]) == Some(month)
    requires ToNumber(Split(s, "/")[2]) == Some(year)
    ensures ParseDate(s) == if InTimeRange(MakeDate(year, month - 1, day)) then Ok(MakeDate(year, month - 1, day))
                         else Err("Invalid date format: " + s)
  {
    ParseDayFirstOf(s, day, month, year);
  }

  lemma ParseDayFirstOf(s: string, day: int, month: int, year: int)
    requires |Split(s, "/")| >= 3
    requires ToNumber(Split(s, "/")[0]) == Some(day)
    requires ToNumber(Split(s, "/")[1]) == Some(month)
    requires ToNumber(Split(s, "/")[2]) == Some(year)
    ensures ParseDayFirst(s) == if InTimeRange(MakeDate(year, month - 1, day)) then Ok(MakeDate(year, month - 1, day))
                             else Err("Invalid date format: " + s)
  {
    DayFirstOfParts(Split(s, "/"), s, day, month, year);
  }

  lemma DayFirstOfParts(parts: seq<string>, s: string, day: int, month: int, year: int)
    requires |parts| >= 3
    requires ToNumber(parts[0]) == Some(day)
    requires ToNumber(parts[1]) == Some(month)
    requires ToNumber(parts[2]) == Some(year)
    ensures DayFirstOf(parts, s) == if InTimeRange(MakeDate(year, month - 1, day)) then Ok(MakeDate(year, month - 1, day))
                                 else Err("Invalid date format: " + s)
  {
  }

  lemma SplitDayFirst(ds: string, ms: string, ys: string)
    requires AllDigits(ds) && AllDigits(ms) && AllDigits(ys)
    ensures Includes(ds + "/" + ms + "/" + ys, "/")
    ensures Split(ds + "/" + ms + "/" + ys, "/") == [ds, ms, ys]
  {
    var s := ds + "/" + ms + "/" + ys;
    DigitsFree(ds, '/');
    DigitsFree(ms, '/');
    DigitsFree(ys, '/');
    assert s[|ds|..|ds| + 1] == "/";
    assert OccursAt(s, "/", |ds|);
    assert s == ds + "/" + (ms + "/" + ys);
    SplitFirst(ds, "/", ms + "/" + ys);
    SplitAround(ms, "/", ys);
  }

  /** A `yyyy-MM-dd` rendering of a date in years 1 to 9999 parses back to it. */
  lemma ParseDateIso(d: Date)
    requires ValidDate(d) && 1 <= d.year <= 9999
    ensures ParseDate(FormatDate(d)) == Ok(d)
  {
    var s := FormatDate(d);
    assert '/' !in s by {
      var ys, ms, dd := PadNat(EraYear(d.year), 4), PadNat(d.month, 2), PadNat(d.day, 2);
      DigitsFree(ys, '/');
      DigitsFree(ms, '/');
      DigitsFree(dd, '/');
      assert s == ys + "-" + ms + "-" + dd;
    }
    NotIncludes(s, "/");
    FormatDateRoundTrip(d);
    ParseDateOfIso(s, d);
  }

  /** A string without a `/` that is an ISO date parses as that date. */
  lemma ParseDateOfIso(s: string, d: Date)
    requires !Includes(s, "/") && ParseIso(s) == Some(d)
    ensures ParseDate(s) == Ok(d)
  {
  }
}
