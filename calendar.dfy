/** Calendar dates as integer day numbers: day 0 is 1970-01-01, a Thursday.
    A date-time is reduced to its calendar day, so `new Date()` is "today"
    and the `date` columns of the tables are days. The civil (proleptic
    Gregorian) calendar is computed with era arithmetic: 400-year eras of
    146097 days, counted from a year that starts in March so that the leap
    day falls at the end of the year. */
module Calendar {

  datatype Civil = Civil(year: int, month: int, day: int)

  // ---------------------------------------------------------------- weeks

  /** Day of the week counted from Monday = 0 (date-fns `weekStartsOn: 1`). */
  function Weekday(d: int): (w: int)
    ensures 0 <= w < 7
  {
    (d + 3) % 7
  }

  /** `startOfWeek(d, { weekStartsOn: 1 })`: the Monday on or before `d`. */
  function WeekStart(d: int): (r: int)
    ensures r <= d < r + 7
    ensures Weekday(r) == 0
  {
    d - Weekday(d)
  }

  /** `endOfWeek(d, { weekStartsOn: 1 })`: the Sunday on or after `d`. */
  function WeekEnd(d: int): (r: int)
    ensures d <= r < d + 7
    ensures Weekday(r) == 6
  {
    WeekStart(d) + 6
  }

  /** The number of `d`'s week, counted from the week of Monday 1969-12-29:
      week `n` starts on day `7 * n - 3`. */
  function WeekNumber(d: int): (n: int)
    ensures 7 * n - 3 == WeekStart(d)
  {
    (d + 3) / 7
  }

  /** A later day is not in an earlier week. */
  lemma WeekNumberMonotone(d1: int, d2: int)
    requires d1 <= d2
    ensures WeekNumber(d1) <= WeekNumber(d2)
  {
  }

  /** `addWeeks(d, n)`. */
  function AddWeeks(d: int, n: int): int
  {
    d + 7 * n
  }

  /** A Monday is its own week start, and every day of a week shares it. */
  lemma WeekStartOfWeekDay(monday: int, k: int)
    requires Weekday(monday) == 0 && 0 <= k < 7
    ensures WeekStart(monday + k) == monday
  {
  }

  // ---------------------------------------------------------------- civil calendar

  predicate IsLeapYear(y: int)
  {
    y % 4 == 0 && (y % 100 != 0 || y % 400 == 0)
  }

  function DaysInMonth(y: int, m: int): (n: int)
    requires 1 <= m <= 12
    ensures 28 <= n <= 31
    ensures n == 29 <==> m == 2 && IsLeapYear(y)
  {
    if m == 2 then (if IsLeapYear(y) then 29 else 28)
    else if m == 4 || m == 6 || m == 9 || m == 11 then 30
    else 31
  }

  /** Days from 0000-03-01 to 1 March of the year `y` counted from March. */
  function MarchYearStart(y: int): int
  {
    var era := y / 400;
    var yoe := y - era * 400;
    era * 146097 + yoe * 365 + yoe / 4 - yoe / 100
  }

  /** Days of a March-based year before its month `mp` (March = 0). */
  function DaysBeforeMonth(mp: int): int
  {
    (153 * mp + 2) / 5
  }

  /** Day number of 1970-01-01 counted from 0000-03-01. */
  const EpochShift := 719468

  /** The day number of the civil date `y-m-d`; a day beyond the month's
      length runs on into the next month, as in `new Date(y, m - 1, d)`. */
  function DaysFromCivil(y: int, m: int, d: int): int
    requires 1 <= m <= 12
  {
    var y' := if m <= 2 then y - 1 else y;
    var mp := if m > 2 then m - 3 else m + 9;
    MarchYearStart(y') + DaysBeforeMonth(mp) + d - 1 - EpochShift
  }

  function Min(a: int, b: int): int
  {
    if a < b then a else b
  }

  lemma CenturyOfEra(doe: int)
    requires 0 <= doe < 146097
    ensures 0 <= Min(doe / 36524, 3) <= 3
    ensures 0 <= doe - 36524 * Min(doe / 36524, 3) <= 36524
  {
  }

  lemma CycleOfCentury(doc: int)
    requires 0 <= doc <= 36524
    ensures 0 <= doc / 1461 <= 24
    ensures 0 <= doc - 1461 * (doc / 1461) < 1461
  {
  }

  lemma YearOfCycle(doq: int)
    requires 0 <= doq < 1461
    ensures 0 <= Min(doq / 365, 3) <= 3
    ensures 0 <= doq - 365 * Min(doq / 365, 3) <= 365
  {
  }

  lemma YearOfEraDivisions(cent: int, quad: int, yr: int)
    requires 0 <= cent <= 3 && 0 <= quad <= 24 && 0 <= yr <= 3
    ensures (100 * cent + 4 * quad + yr) / 4 == 25 * cent + quad
    ensures (100 * cent + 4 * quad + yr) / 100 == cent
  {
  }

  lemma EraOfYear(yoe: int, era: int)
    requires 0 <= yoe < 400
    ensures (yoe + era * 400) / 400 == era
  {
  }

  lemma MonthOfYear(doy: int)
    requires 0 <= doy <= 365
    ensures 0 <= (5 * doy + 2) / 153 <= 11
    ensures 0 <= doy - DaysBeforeMonth((5 * doy + 2) / 153) <= 30
  {
  }

  /** Days of a 400-year era before its year `yoe`, counted from March. */
  function DaysBeforeYearOfEra(yoe: int): int
  {
    yoe * 365 + yoe / 4 - yoe / 100
  }

  /** The year of a 400-year era that holds the era's day `doe`, and the day
      of that March-based year. */
  function YearOfEra(doe: int): (r: (int, int))
    requires 0 <= doe < 146097
    ensures 0 <= r.0 < 400 && 0 <= r.1 <= 365
    ensures DaysBeforeYearOfEra(r.0) + r.1 == doe
  {
    var cent := Min(doe / 36524, 3);
    CenturyOfEra(doe);
    var doc := doe - 36524 * cent;           // day of the century
    var quad := doc / 1461;
    CycleOfCentury(doc);
    var doq := doc - 1461 * quad;            // day of the four-year cycle
    var yr := Min(doq / 365, 3);
    YearOfCycle(doq);
    YearOfEraDivisions(cent, quad, yr);
    (100 * cent + 4 * quad + yr, doq - 365 * yr)
  }

  /** The start of a year given by its era and its place in the era. */
  lemma MarchYearStartOfEra(yoe: int, era: int)
    requires 0 <= yoe < 400
    ensures MarchYearStart(yoe + era * 400) == era * 146097 + yoe * 365 + yoe / 4 - yoe / 100
  {
    EraOfYear(yoe, era);
  }

  /** The month (1..12) and day of the March-based year's day `doy`. */
  function MonthOfMarchYear(doy: int): (r: (int, int))
    requires 0 <= doy <= 365
    ensures 1 <= r.0 <= 12 && 1 <= r.1 <= 31
    ensures DaysBeforeMonth(if r.0 > 2 then r.0 - 3 else r.0 + 9) + r.1 - 1 == doy
  {
    var mp := (5 * doy + 2) / 153;           // month counted from March
    MonthOfYear(doy);
    (if mp < 10 then mp + 3 else mp - 9, doy - DaysBeforeMonth(mp) + 1)
  }

  /** `DaysFromCivil` of a date given by its era, its year of the era
      counted from March, and its month and day. */
  lemma DaysFromCivilOfEra(yoe: int, era: int, m: int, d: int)
    requires 0 <= yoe < 400 && 1 <= m <= 12
    ensures DaysFromCivil(yoe + era * 400 + (if m <= 2 then 1 else 0), m, d)
         == era * 146097 + yoe * 365 + yoe / 4 - yoe / 100
            + DaysBeforeMonth(if m > 2 then m - 3 else m + 9) + d - 1 - EpochShift
  {
    MarchYearStartOfEra(yoe, era);
  }

  /** The date assembled from a day number's era, year of the era, month
      and day maps back to that day number. */
  lemma CivilRoundTrip(z: int, era: int, yoe: int, doy: int, m: int, d: int)
    requires 0 <= yoe < 400 && 1 <= m <= 12
    requires DaysBeforeYearOfEra(yoe) + doy == z + EpochShift - era * 146097
    requires DaysBeforeMonth(if m > 2 then m - 3 else m + 9) + d - 1 == doy
    ensures DaysFromCivil(yoe + era * 400 + (if m <= 2 then 1 else 0), m, d) == z
  {
    DaysFromCivilOfEra(yoe, era, m, d);
  }

  /** The civil date of a day number; `DaysFromCivil` maps it back. */
  function CivilFromDays(z: int): (c: Civil)
    ensures 1 <= c.month <= 12 && 1 <= c.day <= 31
    ensures DaysFromCivil(c.year, c.month, c.day) == z
  {
    var z' := z + EpochShift;
    var era := z' / 146097;
    var doe := z' - era * 146097;            // day of the 400-year era
    var yd := YearOfEra(doe);
    var md := MonthOfMarchYear(yd.1);
    CivilRoundTrip(z, era, yd.0, yd.1, md.0, md.1);
    Civil(yd.0 + era * 400 + (if md.0 <= 2 then 1 else 0), md.0, md.1)
  }

  lemma Shift4(a: int, k: int)
    ensures (a + 4 * k) % 4 == a % 4
  {
  }

  lemma Shift100(a: int, k: int)
    ensures (a + 100 * k) % 100 == a % 100
  {
  }

  lemma Shift400(a: int, k: int)
    ensures (a + 400 * k) % 400 == a % 400
  {
  }

  /** A year and its position in its 400-year era are leap alike. */
  lemma LeapOfYearOfEra(y: int, era: int, yoe: int)
    requires y == era * 400 + yoe
    ensures IsLeapYear(y) <==> IsLeapYear(yoe)
  {
    Shift4(yoe, era * 100);
    Shift100(yoe, era * 4);
    Shift400(yoe, era);
  }

  /** Within an era, one year's start is 365 or 366 days after the last's. */
  lemma YearOfEraLength(yoe: int)
    requires 0 <= yoe < 399
    ensures (yoe + 1) * 365 + (yoe + 1) / 4 - (yoe + 1) / 100 - (yoe * 365 + yoe / 4 - yoe / 100)
         == if IsLeapYear(yoe + 1) then 366 else 365
  {
    assert (yoe + 1) / 4 == yoe / 4 + (if (yoe + 1) % 4 == 0 then 1 else 0);
    assert (yoe + 1) / 100 == yoe / 100 + (if (yoe + 1) % 100 == 0 then 1 else 0);
    assert (yoe + 1) % 400 != 0;
  }

  /** The March-based year that ends with the February of `y + 1` has 366
      days exactly when `y + 1` is a leap year. */
  lemma MarchYearLength(y: int)
    ensures MarchYearStart(y + 1) - MarchYearStart(y) == if IsLeapYear(y + 1) then 366 else 365
  {
    var era := y / 400;
    var yoe := y - era * 400;
    MarchYearStartOfEra(yoe, era);
    if yoe == 399 {
      MarchYearStartOfEra(0, era + 1);
      assert y + 1 == 0 + (era + 1) * 400;
      LeapOfYearOfEra(y + 1, era + 1, 0);
    } else {
      MarchYearStartOfEra(yoe + 1, era);
      assert y + 1 == yoe + 1 + era * 400;
      LeapOfYearOfEra(y + 1, era, yoe + 1);
      YearOfEraLength(yoe);
    }
  }

  /** The first day of each month of a March-based year. */
  lemma MonthOffsets()
    ensures DaysBeforeMonth(0) == 0 && DaysBeforeMonth(1) == 31 && DaysBeforeMonth(2) == 61
    ensures DaysBeforeMonth(3) == 92 && DaysBeforeMonth(4) == 122 && DaysBeforeMonth(5) == 153
    ensures DaysBeforeMonth(6) == 184 && DaysBeforeMonth(7) == 214 && DaysBeforeMonth(8) == 245
    ensures DaysBeforeMonth(9) == 275 && DaysBeforeMonth(10) == 306 && DaysBeforeMonth(11) == 337
  {
  }

  /** The first of the next month lies `DaysInMonth` days after the first of
      this one, across the year boundary and the leap day included. */
  lemma MonthLength(y: int, m: int)
    requires 1 <= m <= 12
    ensures m < 12 ==> DaysFromCivil(y, m + 1, 1) - DaysFromCivil(y, m, 1) == DaysInMonth(y, m)
    ensures m == 12 ==> DaysFromCivil(y + 1, 1, 1) - DaysFromCivil(y, m, 1) == DaysInMonth(y, m)
  {
    MonthOffsets();
    if m == 2 {
      MarchYearLength(y - 1);
    }
  }

  /** Within one year, a later month starts on a later day. */
  lemma {:induction false} MonthStartsIncrease(y: int, m1: int, m2: int)
    requires 1 <= m1 <= m2 <= 12
    ensures DaysFromCivil(y, m1, 1) <= DaysFromCivil(y, m2, 1)
    decreases m2 - m1
  {
    if m1 < m2 {
      MonthLength(y, m1);
      MonthStartsIncrease(y, m1 + 1, m2);
    }
  }

  // ---------------------------------------------------------------- period starts

  /** `startOfMonth(d)`. */
  function MonthStart(d: int): (r: int)
    ensures r <= d < r + 31
  {
    var c := CivilFromDays(d);
    DaysFromCivil(c.year, c.month, 1)
  }

  /** First month (1, 4, 7 or 10) of the quarter holding month `m`. */
  function QuarterFirstMonth(m: int): (q: int)
    requires 1 <= m <= 12
    ensures 1 <= q <= m && m < q + 3 && q % 3 == 1
  {
    3 * ((m - 1) / 3) + 1
  }

  /** `endOfMonth(d)`: the last day of `d`'s month. */
  function MonthEnd(d: int): int
  {
    var c := CivilFromDays(d);
    DaysFromCivil(c.year, c.month, 1) + DaysInMonth(c.year, c.month) - 1
  }

  /** The month of `d` counted from January of year 0: `yyyy-MM` as a number. */
  function MonthIndex(d: int): int
  {
    var c := CivilFromDays(d);
    12 * c.year + c.month - 1
  }

  /** `startOfQuarter(d)`. */
  function QuarterStart(d: int): int
  {
    var c := CivilFromDays(d);
    DaysFromCivil(c.year, QuarterFirstMonth(c.month), 1)
  }

  /** `startOfYear(d)`. */
  function YearStart(d: int): int
  {
    DaysFromCivil(CivilFromDays(d).year, 1, 1)
  }

  /** `endOfYear(d)`: the 31st of December of `d`'s year. */
  function YearEnd(d: int): int
  {
    DaysFromCivil(CivilFromDays(d).year, 12, 31)
  }

  /** The period starts nest: year, then quarter, then month, each on or
      before the day itself. */
  lemma PeriodStartsOrdered(d: int)
    ensures YearStart(d) <= QuarterStart(d) <= MonthStart(d) <= d
  {
    var c := CivilFromDays(d);
    MonthStartsIncrease(c.year, 1, QuarterFirstMonth(c.month));
    MonthStartsIncrease(c.year, QuarterFirstMonth(c.month), c.month);
  }

  // ---------------------------------------------------------------- JavaScript dates

  /** The year `new Date(year, …)` means: a two-digit year is 19xx. */
  function JsYear(year: int): int
  {
    if 0 <= year <= 99 then 1900 + year else year
  }

  /** `new Date(year, monthIndex, day)` reduced to its day: a month index
      outside 0..11 runs into a neighbouring year, and a day outside the
      month runs into a neighbouring month. */
  function JsDate(year: int, monthIndex: int, day: int): int
  {
    DaysFromCivil(JsYear(year) + monthIndex / 12, monthIndex % 12 + 1, day)
  }

  /** Year and month (1..12) that `new Date(year, monthIndex, 1)` falls in. */
  function JsMonth(year: int, monthIndex: int): (c: Civil)
    ensures 1 <= c.month <= 12 && c.day == 1
  {
    Civil(JsYear(year) + monthIndex / 12, monthIndex % 12 + 1, 1)
  }

  /** Month index `k + 1` is the month after month index `k`. */
  lemma NextMonthIndex(k: int)
    ensures k % 12 < 11 ==> (k + 1) / 12 == k / 12 && (k + 1) % 12 == k % 12 + 1
    ensures k % 12 == 11 ==> (k + 1) / 12 == k / 12 + 1 && (k + 1) % 12 == 0
  {
  }

  /** `new Date(year, month - 1, 1)` and `new Date(year, month, 0)` are the
      first and the last day of one month, whatever `month` is. */
  lemma JsMonthBounds(year: int, month: int)
    ensures var c := JsMonth(year, month - 1);
      JsDate(year, month - 1, 1) == DaysFromCivil(c.year, c.month, 1) &&
      JsDate(year, month, 0) - JsDate(year, month - 1, 1) + 1 == DaysInMonth(c.year, c.month)
  {
    var y, k := JsYear(year), month - 1;
    var ym, m := y + k / 12, k % 12 + 1;
    NextMonthIndex(k);
    assert k + 1 == month;
    var ny, nm := y + month / 12, month % 12 + 1;
    assert JsDate(year, month, 0) == DaysFromCivil(ny, nm, 0);
    LastDayOfMonth(ym, m, ny, nm);
  }

  /** Day 0 of the next month (`ny`, `nm`) is the last day of this one. */
  lemma LastDayOfMonth(y: int, m: int, ny: int, nm: int)
    requires 1 <= m <= 12
    requires if m < 12 then ny == y && nm == m + 1 else ny == y + 1 && nm == 1
    ensures DaysFromCivil(ny, nm, 0) == DaysFromCivil(y, m, 1) + DaysInMonth(y, m) - 1
  {
    MonthLength(y, m);
    DayShift(ny, nm, 0);
  }

  /** A day of the month counts on from the first. */
  lemma DayShift(y: int, m: int, d: int)
    requires 1 <= m <= 12
    ensures DaysFromCivil(y, m, d) == DaysFromCivil(y, m, 1) + d - 1
  {
  }
}
