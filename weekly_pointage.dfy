/** The weekly attendance page: the totals of the week over the entries of
    the weekly payroll view, the attendance average, the week being shown
    and its navigation, and the "mark as paid" action. */
module WeeklyPointage {
  import opened Wrappers
  import opened Seqs
  import opened Records
  import opened Calendar
  import opened WeeklyPayroll
  import opened AttendanceReport
  import opened PointageStore

  // ---------------------------------------------------------------- the entries' fields

  function TotalDaysOf(): EmployeeWeek -> int { (x: EmployeeWeek) => x.weeklyStats.totalDays }
  function PresentDaysOf(): EmployeeWeek -> int { (x: EmployeeWeek) => x.weeklyStats.presentDays }
  function AbsentDaysOf(): EmployeeWeek -> int { (x: EmployeeWeek) => x.weeklyStats.absentDays }
  function RestDaysOf(): EmployeeWeek -> int { (x: EmployeeWeek) => x.weeklyStats.restDays }
  function SalaryOf(): EmployeeWeek -> int { (x: EmployeeWeek) => x.weeklyStats.totalSalary }
  function AmountOf(): EmployeeWeek -> int { (x: EmployeeWeek) => x.weeklyStats.totalAmount }
  function AdvancesOf(): EmployeeWeek -> int { (x: EmployeeWeek) => x.weeklyStats.totalAdvances }
  function PendingOf(): EmployeeWeek -> int { (x: EmployeeWeek) => x.weeklyStats.pendingAdvances }
  function ApprovedOf(): EmployeeWeek -> int { (x: EmployeeWeek) => x.weeklyStats.approvedAdvances }
  function RemainingOf(): EmployeeWeek -> int { (x: EmployeeWeek) => x.weeklyStats.remainingAmount }

  /** `item => item.weeklyStats.isWeekPaid` */
  function WeekPaid(): EmployeeWeek -> bool { (x: EmployeeWeek) => x.weeklyStats.isWeekPaid }

  /** An entry whose counts are consistent: no more present days than days. */
  predicate Consistent(x: EmployeeWeek)
  {
    0 <= x.weeklyStats.presentDays <= x.weeklyStats.totalDays
  }

  /** Every entry the weekly view builds is consistent. */
  lemma WeeklyDataConsistent(employees: seq<Employee>, pointages: seq<Pointage>, avances: seq<Advance>)
    ensures forall i :: 0 <= i < |employees| ==> Consistent(WeeklyData(employees, pointages, avances)[i])
  {
    forall i | 0 <= i < |employees|
      ensures Consistent(WeeklyData(employees, pointages, avances)[i])
    {
      EntryCounts(employees[i], pointages, avances);
    }
  }

  /** Sums of consistent entries: no more present days than days, none negative. */
  lemma PresentWithinDays(items: seq<EmployeeWeek>)
    requires forall i :: 0 <= i < |items| ==> Consistent(items[i])
    ensures 0 <= SumOf(items, PresentDaysOf()) <= SumOf(items, TotalDaysOf())
  {
    SumOfMonotone(items, PresentDaysOf(), TotalDaysOf());
    SumOfNonNegative(items, PresentDaysOf());
  }

  // ---------------------------------------------------------------- weeklyTotals

  datatype WeekTotals = WeekTotals(
    totalDays: int,
    totalPresentDays: int,
    totalAbsentDays: int,
    totalRestDays: int,
    totalSalary: int,
    totalAmount: int,
    totalAdvances: int,
    pendingAdvances: int,
    approvedAdvances: int,
    remainingAmount: int,
    paidEmployees: int)

  /** The totals: each field is the sum of that field over the entries, and
      `paidEmployees` counts the paid weeks. */
  function TotalsOf(items: seq<EmployeeWeek>): WeekTotals
  {
    WeekTotals(
      SumOf(items, TotalDaysOf()), SumOf(items, PresentDaysOf()), SumOf(items, AbsentDaysOf()),
      SumOf(items, RestDaysOf()), SumOf(items, SalaryOf()), SumOf(items, AmountOf()),
      SumOf(items, AdvancesOf()), SumOf(items, PendingOf()), SumOf(items, ApprovedOf()),
      SumOf(items, RemainingOf()), SumOf(items, Indicator(WeekPaid())))
  }

  /** The `reduce` that builds `weeklyTotals`, adding each entry field by
      field into the accumulator. */
  method WeeklyTotals(items: seq<EmployeeWeek>) returns (t: WeekTotals)
    ensures t == TotalsOf(items)
    ensures 0 <= t.paidEmployees == |Filter(items, WeekPaid())| <= |items|
  {
    t := WeekTotals(0, 0, 0, 0, 0, 0, 0, 0, 0, 0, 0);
    var i := 0;
    while i < |items|
      invariant 0 <= i <= |items|
      invariant t == TotalsOf(items[..i])
    {
      var s := items[i].weeklyStats;
      assert items[..i + 1][..i] == items[..i];
      t := t.(totalDays := t.totalDays + s.totalDays);
      t := t.(totalPresentDays := t.totalPresentDays + s.presentDays);
      t := t.(totalAbsentDays := t.totalAbsentDays + s.absentDays);
      t := t.(totalRestDays := t.totalRestDays + s.restDays);
      t := t.(totalSalary := t.totalSalary + s.totalSalary);
      t := t.(totalAmount := t.totalAmount + s.totalAmount);
      t := t.(totalAdvances := t.totalAdvances + s.totalAdvances);
      t := t.(pendingAdvances := t.pendingAdvances + s.pendingAdvances);
      t := t.(approvedAdvances := t.approvedAdvances + s.approvedAdvances);
      t := t.(remainingAmount := t.remainingAmount + s.remainingAmount);
      t := t.(paidEmployees := t.paidEmployees + if s.isWeekPaid then 1 else 0);
      i := i + 1;
    }
    assert items[..i] == items;
    SumOfIndicator(items, WeekPaid());
  }

  /** `averageAttendance`: 0 without days, otherwise the share of present
      days in percent. */
  function AverageAttendance(items: seq<EmployeeWeek>): (r: real)
    ensures TotalsOf(items).totalDays == 0 ==> r == 0.0
    ensures TotalsOf(items).totalDays > 0 ==>
      r * (TotalsOf(items).totalDays as real) == (TotalsOf(items).totalPresentDays as real) * 100.0
  {
    AttendanceRate(TotalsOf(items).totalPresentDays, TotalsOf(items).totalDays)
  }

  /** Over consistent entries the average lies between 0 and 100. */
  lemma AverageInRange(items: seq<EmployeeWeek>)
    requires forall i :: 0 <= i < |items| ==> Consistent(items[i])
    ensures 0.0 <= AverageAttendance(items) <= 100.0
  {
    PresentWithinDays(items);
  }

  // ---------------------------------------------------------------- the week shown

  /** The page state: the Monday of the week shown. */
  class WeekNavigator {
    var currentWeekStart: int

    predicate Valid()
      reads this
    {
      Weekday(currentWeekStart) == 0
    }

    /** `useState(startOfWeek(new Date(), { weekStartsOn: 1 }))` */
    constructor (today: int)
      ensures Valid() && currentWeekStart == WeekStart(today)
      ensures currentWeekStart <= today <= WeekEnd(currentWeekStart)
    {
      currentWeekStart := WeekStart(today);
    }

    /** `goToPreviousWeek` */
    method GoToPreviousWeek()
      requires Valid()
      modifies this
      ensures Valid() && currentWeekStart == old(currentWeekStart) - 7
    {
      currentWeekStart := AddWeeks(currentWeekStart, -1);
    }

    /** `goToNextWeek` */
    method GoToNextWeek()
      requires Valid()
      modifies this
      ensures Valid() && currentWeekStart == old(currentWeekStart) + 7
    {
      currentWeekStart := AddWeeks(currentWeekStart, 1);
    }

    /** `goToCurrentWeek`: back to the initial state. */
    method GoToCurrentWeek(today: int)
      modifies this
      ensures Valid() && currentWeekStart == WeekStart(today)
    {
      currentWeekStart := WeekStart(today);
    }

    /** `handleMarkAsPaid(employeeIds)`: post the week shown and the ids to
        the mark-paid route; the data is reloaded only when it answers OK,
        and then exactly the rows of that Monday-to-Sunday week are paid. */
    method HandleMarkAsPaid(table: PointageTable, employeeIds: seq<Id>, now: int, fails: bool)
      returns (reload: bool)
      requires Valid() && table.Valid()
      modifies table
      ensures table.Valid()
      ensures reload <==> !fails
      ensures reload ==> (table.rows == MarkWeek(old(table.rows), employeeIds, currentWeekStart, now)
        && WeekEnd(currentWeekStart) == currentWeekStart + 6)
      ensures !reload ==> table.rows == old(table.rows)
    {
      var r := table.MarkPaid(OnDay(currentWeekStart), IdArray(employeeIds), now, fails);
      reload := r.MarkedPaid?;
      WeekStartOfWeekDay(currentWeekStart, 0);
    }
  }

  /** Going back a week and forward again shows the same week. */
  method PreviousThenNext(nav: WeekNavigator)
    requires nav.Valid()
    modifies nav
    ensures nav.Valid() && nav.currentWeekStart == old(nav.currentWeekStart)
  {
    nav.GoToPreviousWeek();
    nav.GoToNextWeek();
  }
}
