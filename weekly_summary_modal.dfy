/** The weekly summary dialog: the global totals of the week's entries, the
    average attendance behind its `presentEmployees > 0` guard, and each
    employee's attendance rate. */
module WeeklySummaryModal {
  import opened Wrappers
  import opened Seqs
  import opened WeeklyPayroll
  import opened AttendanceReport
  import opened WeeklyPointage

  datatype GlobalStats = GlobalStats(
    totalDays: int,
    totalAmount: int,
    totalSalary: int,
    totalAdvances: int,
    remainingAmount: int,
    presentEmployees: int,
    paidEmployees: int,
    totalPresentDays: int,
    totalAbsentDays: int,
    totalRestDays: int)

  /** `item.weeklyStats.presentDays > 0` */
  function WasPresent(): EmployeeWeek -> bool
  {
    (x: EmployeeWeek) => x.weeklyStats.presentDays > 0
  }

  /** The global totals: field sums, and the counts of employees present at
      least once and of paid weeks. */
  function GlobalOf(items: seq<EmployeeWeek>): GlobalStats
  {
    GlobalStats(
      SumOf(items, TotalDaysOf()), SumOf(items, AmountOf()), SumOf(items, SalaryOf()),
      SumOf(items, AdvancesOf()), SumOf(items, RemainingOf()),
      SumOf(items, Indicator(WasPresent())), SumOf(items, Indicator(WeekPaid())),
      SumOf(items, PresentDaysOf()), SumOf(items, AbsentDaysOf()), SumOf(items, RestDaysOf()))
  }

  /** The `reduce` that builds `globalStats`. */
  method GlobalStatsOf(items: seq<EmployeeWeek>) returns (g: GlobalStats)
    ensures g == GlobalOf(items)
    ensures g.presentEmployees == |Filter(items, WasPresent())|
    ensures g.paidEmployees == |Filter(items, WeekPaid())|
  {
    g := GlobalStats(0, 0, 0, 0, 0, 0, 0, 0, 0, 0);
    var i := 0;
    while i < |items|
      invariant 0 <= i <= |items|
      invariant g == GlobalOf(items[..i])
    {
      var s := items[i].weeklyStats;
      assert items[..i + 1][..i] == items[..i];
      g := g.(totalDays := g.totalDays + s.totalDays);
      g := g.(totalAmount := g.totalAmount + s.totalAmount);
      g := g.(totalSalary := g.totalSalary + s.totalSalary);
      g := g.(totalAdvances := g.totalAdvances + s.totalAdvances);
      g := g.(remainingAmount := g.remainingAmount + s.remainingAmount);
      g := g.(presentEmployees := g.presentEmployees + if s.presentDays > 0 then 1 else 0);
      g := g.(paidEmployees := g.paidEmployees + if s.isWeekPaid then 1 else 0);
      g := g.(totalPresentDays := g.totalPresentDays + s.presentDays);
      g := g.(totalAbsentDays := g.totalAbsentDays + s.absentDays);
      g := g.(totalRestDays := g.totalRestDays + s.restDays);
      i := i + 1;
    }
    assert items[..i] == items;
    SumOfIndicator(items, WasPresent());
    SumOfIndicator(items, WeekPaid());
  }

  /** Over consistent entries, someone present means some days: the
      average's guard keeps its division away from zero. */
  lemma GuardImpliesDays(items: seq<EmployeeWeek>)
    requires forall i :: 0 <= i < |items| ==> Consistent(items[i])
    ensures GlobalOf(items).presentEmployees <= GlobalOf(items).totalPresentDays <= GlobalOf(items).totalDays
    ensures GlobalOf(items).presentEmployees > 0 ==> GlobalOf(items).totalDays > 0
  {
    SumOfMonotone(items, Indicator(WasPresent()), PresentDaysOf());
    PresentWithinDays(items);
  }

  /** `averageAttendance`: 0 when nobody was present, otherwise the share
      of present days in percent. */
  function SummaryAverage(items: seq<EmployeeWeek>): (r: real)
    requires forall i :: 0 <= i < |items| ==> Consistent(items[i])
    ensures GlobalOf(items).presentEmployees == 0 ==> r == 0.0
    ensures GlobalOf(items).presentEmployees > 0 ==>
      r * (GlobalOf(items).totalDays as real) == (GlobalOf(items).totalPresentDays as real) * 100.0
    ensures 0.0 <= r <= 100.0
  {
    var g := GlobalOf(items);
    GuardImpliesDays(items);
    if g.presentEmployees > 0 then AttendanceRate(g.totalPresentDays, g.totalDays) else 0.0
  }

  /** What the dialog shows. */
  datatype Summary = Summary(global: GlobalStats, averageAttendance: real, rates: seq<real>)

  /** The dialog for `weekData` and `weekStart`: nothing when either is
      missing; otherwise the totals of `GlobalOf`, the average of
      `SummaryAverage` and one attendance rate per employee, the share of
      present days in percent, 0 for an employee without days. */
  function WeeklySummary(weekData: Option<seq<EmployeeWeek>>, weekStart: Option<int>): (r: Option<Summary>)
    requires weekData.Some? ==> forall i :: 0 <= i < |weekData.value| ==> Consistent(weekData.value[i])
    ensures r.None? <==> weekData.None? || weekStart.None?
    ensures r.Some? ==> |r.value.rates| == |weekData.value|
    ensures r.Some? ==> r.value.global == GlobalOf(weekData.value)
    ensures r.Some? ==> r.value.averageAttendance == SummaryAverage(weekData.value)
    ensures r.Some? ==> forall i :: 0 <= i < |weekData.value| ==>
      var s := weekData.value[i].weeklyStats;
      0.0 <= r.value.rates[i] <= 100.0 &&
      (s.totalDays == 0 ==> r.value.rates[i] == 0.0) &&
      (s.totalDays > 0 ==> r.value.rates[i] * (s.totalDays as real) == (s.presentDays as real) * 100.0)
  {
    if weekData.None? || weekStart.None? then None
    else
      var items := weekData.value;
      Some(Summary(GlobalOf(items), SummaryAverage(items),
                   Map(items, (x: EmployeeWeek) => AttendanceRate(x.weeklyStats.presentDays, x.weeklyStats.totalDays))))
  }
}
