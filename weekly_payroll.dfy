/** The weekly payroll view (`GET /api/pointages/weekly`): one entry per
    active employee with that employee's attendance rows and salary advances
    of the week and the week's totals. The employees, rows and advances
    arrive already fetched: active employees ordered by first name, rows and
    advances restricted to the week. */
module WeeklyPayroll {
  import opened Wrappers
  import opened Seqs
  import opened Records
  import opened Calendar

  datatype WeeklyStats = WeeklyStats(
    totalDays: int,
    presentDays: int,
    absentDays: int,
    restDays: int,
    totalAmount: int,
    totalSalary: int,
    totalAdvances: int,
    pendingAdvances: int,
    approvedAdvances: int,
    remainingAmount: int,
    isWeekPaid: bool)

  datatype EmployeeWeek = EmployeeWeek(
    employe: Employee,
    pointages: seq<Pointage>,
    avances: seq<Advance>,
    weeklyStats: WeeklyStats)

  /** `p => p.paye` */
  function IsPaid(): Pointage -> bool
  {
    (p: Pointage) => p.paye
  }

  /** The totals of one employee's week, from their rows and advances. */
  function StatsOf(e: Employee, rows: seq<Pointage>, avs: seq<Advance>): WeeklyStats
  {
    var presentDays := |Filter(rows, DayStatusIs(Present))|;
    var totalSalary := presentDays * OrZero(e.salaireJour);
    var totalAdvances := SumOf(avs, AdvanceAmount);
    WeeklyStats(
      |rows|,
      presentDays,
      |Filter(rows, DayStatusIs(Absent))|,
      |Filter(rows, DayStatusIs(Rest))|,
      SumOf(rows, Amount),
      totalSalary,
      totalAdvances,
      SumOf(Filter(avs, AdvanceStatusIs(Pending)), AdvanceAmount),
      SumOf(Filter(avs, AdvanceStatusIs(Approved)), AdvanceAmount),
      totalSalary - totalAdvances,
      |rows| > 0 && |Filter(rows, IsPaid())| == |rows|)
  }

  /** The entry of one employee. */
  function EntryFor(e: Employee, pointages: seq<Pointage>, avances: seq<Advance>): (r: EmployeeWeek)
    ensures r.employe == e
    ensures forall i :: 0 <= i < |r.pointages| ==> r.pointages[i] in pointages && r.pointages[i].employeId == e.id
    ensures forall i :: 0 <= i < |pointages| && pointages[i].employeId == e.id ==> pointages[i] in r.pointages
    ensures forall i :: 0 <= i < |r.avances| ==> r.avances[i] in avances && r.avances[i].employeId == e.id
    ensures forall i :: 0 <= i < |avances| && avances[i].employeId == e.id ==> avances[i] in r.avances
  {
    var rows := Filter(pointages, RowOf(e.id));
    var avs := Filter(avances, AdvanceOf(e.id));
    EmployeeWeek(e, rows, avs, StatsOf(e, rows, avs))
  }

  /** `weeklyData`: one entry per employee, in the order of the employee list. */
  function WeeklyData(employees: seq<Employee>, pointages: seq<Pointage>, avances: seq<Advance>): (r: seq<EmployeeWeek>)
    ensures |r| == |employees|
    ensures forall i :: 0 <= i < |r| ==> r[i].employe == employees[i]
  {
    Map(employees, e => EntryFor(e, pointages, avances))
  }

  datatype WeeklyReport = WeeklyReport(weekStart: int, weekEnd: int, weeklyData: seq<EmployeeWeek>)

  const ErrorMessage := "Erreur lors de la récupération des pointages hebdomadaires"

  /** The route: the week runs from the `weekStart` parameter (this week's
      Monday when absent) to the Sunday of that date's week. A failed query,
      or a `weekStart` that does not parse (on which `format` throws),
      answers 500. */
  function WeeklyRoute(weekStart: DateParam, today: int, employees: Query<seq<Employee>>,
                       pointages: Query<seq<Pointage>>, avances: Query<seq<Advance>>): (r: ApiResult<WeeklyReport>)
    ensures weekStart.BadDate? || employees.QueryFailed? || pointages.QueryFailed? || avances.QueryFailed?
        <==> r == Fail(500, ErrorMessage)
    ensures !weekStart.BadDate? && employees.Answered? && pointages.Answered? && avances.Answered? <==> r.Ok?
    ensures r.Ok? && weekStart.OnDay? ==> r.body.weekStart == weekStart.day
    ensures r.Ok? && weekStart.NoDate? ==>
      Weekday(r.body.weekStart) == 0 && r.body.weekStart <= today < r.body.weekStart + 7
    ensures r.Ok? ==>
      r.body.weekStart <= r.body.weekEnd < r.body.weekStart + 7 && Weekday(r.body.weekEnd) == 6
    ensures r.Ok? ==>
      var d := r.body.weeklyData;
      |d| == |employees.value| &&
      forall i :: 0 <= i < |d| ==> d[i] == EntryFor(employees.value[i], pointages.value, avances.value)
  {
    if weekStart.BadDate? || employees.QueryFailed? || pointages.QueryFailed? || avances.QueryFailed? then
      Fail(500, ErrorMessage)
    else
      var start := if weekStart.OnDay? then weekStart.day else WeekStart(today);
      Ok(WeeklyReport(start, WeekEnd(start), WeeklyData(employees.value, pointages.value, avances.value)))
  }

  /** Each entry's rows and advances are the employee's own, in fetch order. */
  lemma EntryKeepsOrder(e: Employee, pointages: seq<Pointage>, avances: seq<Advance>)
    ensures SubsequenceOf(EntryFor(e, pointages, avances).pointages, pointages)
    ensures SubsequenceOf(EntryFor(e, pointages, avances).avances, avances)
  {
    FilterIsSubsequence(pointages, RowOf(e.id));
    FilterIsSubsequence(avances, AdvanceOf(e.id));
  }

  /** Rows with an unknown day status are counted in `totalDays` only. */
  predicate KnownStatuses(rows: seq<Pointage>)
  {
    forall i :: 0 <= i < |rows| ==> rows[i].statutJour in {Present, Absent, Rest}
  }

  /** A row has one status, so the three counts never exceed the row count,
      and they add up to it when every status is one of the three. */
  lemma {:induction false} StatusCountsBounded(rows: seq<Pointage>)
    ensures |Filter(rows, DayStatusIs(Present))| + |Filter(rows, DayStatusIs(Absent))|
          + |Filter(rows, DayStatusIs(Rest))| <= |rows|
    ensures KnownStatuses(rows) ==>
      |Filter(rows, DayStatusIs(Present))| + |Filter(rows, DayStatusIs(Absent))|
      + |Filter(rows, DayStatusIs(Rest))| == |rows|
    decreases |rows|
  {
    if rows != [] {
      var rows' := rows[..|rows| - 1];
      StatusCountsBounded(rows');
      if KnownStatuses(rows) {
        assert KnownStatuses(rows') by {
          forall i | 0 <= i < |rows'| ensures rows'[i].statutJour in {Present, Absent, Rest} {
            assert rows'[i] == rows[i];
          }
        }
        assert rows[|rows| - 1].statutJour in {Present, Absent, Rest};
      }
    }
  }

  /** The day counts of a weekly entry are bounded by its row count. */
  lemma EntryCounts(e: Employee, pointages: seq<Pointage>, avances: seq<Advance>)
    ensures var s := EntryFor(e, pointages, avances).weeklyStats;
      s.presentDays + s.absentDays + s.restDays <= s.totalDays
    ensures var r := EntryFor(e, pointages, avances);
      KnownStatuses(r.pointages) ==>
      r.weeklyStats.presentDays + r.weeklyStats.absentDays + r.weeklyStats.restDays == r.weeklyStats.totalDays
  {
    StatusCountsBounded(Filter(pointages, RowOf(e.id)));
  }

  /** The daily rate earned on a row: the rate on a present day, else 0. */
  function DayWage(rate: int): Pointage -> int
  {
    (p: Pointage) => if p.statutJour == Present then rate else 0
  }

  /** Present days times the rate is the rate summed over present days. */
  lemma {:induction false} SalaryIsSumOfDayWages(rows: seq<Pointage>, rate: int)
    ensures |Filter(rows, DayStatusIs(Present))| * rate == SumOf(rows, DayWage(rate))
    decreases |rows|
  {
    if rows != [] {
      var rows' := rows[..|rows| - 1];
      var n := |Filter(rows', DayStatusIs(Present))|;
      SalaryIsSumOfDayWages(rows', rate);
      assert SumOf(rows, DayWage(rate)) == n * rate + DayWage(rate)(rows[|rows| - 1]);
      if rows[|rows| - 1].statutJour == Present {
        assert |Filter(rows, DayStatusIs(Present))| == n + 1;
        MulSucc(n, rate);
      } else {
        assert |Filter(rows, DayStatusIs(Present))| == n;
      }
    }
  }

  lemma MulSucc(n: int, r: int)
    ensures (n + 1) * r == n * r + r
  {
  }

  /** `totalSalary` pays the daily rate (0 when missing) for each present
      day of the employee's own rows. */
  lemma EntrySalary(e: Employee, pointages: seq<Pointage>, avances: seq<Advance>)
    ensures EntryFor(e, pointages, avances).weeklyStats.totalSalary
         == SumOf(Filter(pointages, RowOf(e.id)), DayWage(OrZero(e.salaireJour)))
  {
    SalaryIsSumOfDayWages(Filter(pointages, RowOf(e.id)), OrZero(e.salaireJour));
  }

  /** Advances neither pending nor approved (refused, paid, anything else). */
  function OtherAdvance(): Advance -> bool
  {
    (a: Advance) => a.statut != Pending && a.statut != Approved
  }

  /** `totalAdvances` counts every advance whatever its status: it is the
      pending sum, plus the approved sum, plus the sum of all the others. */
  lemma {:induction false} AdvancesPartition(avs: seq<Advance>)
    ensures SumOf(avs, AdvanceAmount)
         == SumOf(Filter(avs, AdvanceStatusIs(Pending)), AdvanceAmount)
          + SumOf(Filter(avs, AdvanceStatusIs(Approved)), AdvanceAmount)
          + SumOf(Filter(avs, OtherAdvance()), AdvanceAmount)
    decreases |avs|
  {
    if avs != [] {
      var avs' := avs[..|avs| - 1];
      var a := avs[|avs| - 1];
      AdvancesPartition(avs');
      var pending, approved, other := Filter(avs', AdvanceStatusIs(Pending)),
        Filter(avs', AdvanceStatusIs(Approved)), Filter(avs', OtherAdvance());
      if a.statut == Pending {
        assert Filter(avs, AdvanceStatusIs(Pending)) == pending + [a];
        assert Filter(avs, AdvanceStatusIs(Approved)) == approved;
        assert Filter(avs, OtherAdvance()) == other;
        SumOfSnoc(pending, a, AdvanceAmount);
      } else if a.statut == Approved {
        assert Filter(avs, AdvanceStatusIs(Pending)) == pending;
        assert Filter(avs, AdvanceStatusIs(Approved)) == approved + [a];
        assert Filter(avs, OtherAdvance()) == other;
        SumOfSnoc(approved, a, AdvanceAmount);
      } else {
        assert Filter(avs, AdvanceStatusIs(Pending)) == pending;
        assert Filter(avs, AdvanceStatusIs(Approved)) == approved;
        assert Filter(avs, OtherAdvance()) == other + [a];
        SumOfSnoc(other, a, AdvanceAmount);
      }
    }
  }

  /** The remainder is the salary less every advance of the week, so with
      non-negative advances it never exceeds the salary, and a pending
      advance already reduces it. */
  lemma EntryRemaining(e: Employee, pointages: seq<Pointage>, avances: seq<Advance>)
    requires forall a :: a in avances ==> a.montant >= 0
    ensures var s := EntryFor(e, pointages, avances).weeklyStats;
      s.remainingAmount <= s.totalSalary &&
      s.remainingAmount <= s.totalSalary - s.pendingAdvances - s.approvedAdvances
  {
    var avs := Filter(avances, AdvanceOf(e.id));
    AdvancesPartition(avs);
    SumOfNonNegative(avs, AdvanceAmount);
    SumOfNonNegative(Filter(avs, OtherAdvance()), AdvanceAmount);
  }

  /** `isWeekPaid`: the employee has at least one row this week and every one
      of their rows is paid. */
  lemma EntryPaid(e: Employee, pointages: seq<Pointage>, avances: seq<Advance>)
    ensures EntryFor(e, pointages, avances).weeklyStats.isWeekPaid <==>
      (exists i :: 0 <= i < |pointages| && pointages[i].employeId == e.id) &&
      (forall i :: 0 <= i < |pointages| && pointages[i].employeId == e.id ==> pointages[i].paye)
  {
    var rows := Filter(pointages, RowOf(e.id));
    assert EntryFor(e, pointages, avances).weeklyStats.isWeekPaid
       <==> |rows| > 0 && |Filter(rows, IsPaid())| == |rows|;
    AllKeptIffAll(rows, IsPaid());
    OwnRowsExist(pointages, e.id);
    OwnRowsPaid(pointages, e.id);
  }

  /** An employee has rows exactly when some row carries their id. */
  lemma OwnRowsExist(pointages: seq<Pointage>, id: Id)
    ensures |Filter(pointages, RowOf(id))| > 0
        <==> exists i :: 0 <= i < |pointages| && pointages[i].employeId == id
  {
    var rows := Filter(pointages, RowOf(id));
    if exists i :: 0 <= i < |pointages| && pointages[i].employeId == id {
      var i :| 0 <= i < |pointages| && pointages[i].employeId == id;
      assert pointages[i] in rows;
    }
    if |rows| > 0 {
      assert rows[0] in pointages;
    }
  }

  /** All of an employee's rows are paid exactly when every row carrying
      their id is. */
  lemma OwnRowsPaid(pointages: seq<Pointage>, id: Id)
    ensures var rows := Filter(pointages, RowOf(id));
      (forall i :: 0 <= i < |rows| ==> IsPaid()(rows[i]))
      <==> (forall i :: 0 <= i < |pointages| && pointages[i].employeId == id ==> pointages[i].paye)
  {
    var rows := Filter(pointages, RowOf(id));
    if forall i :: 0 <= i < |rows| ==> IsPaid()(rows[i]) {
      PaidRowsCover(pointages, id, rows);
    }
    if forall i :: 0 <= i < |pointages| && pointages[i].employeId == id ==> pointages[i].paye {
      CoveredRowsPaid(pointages, id, rows);
    }
  }

  lemma PaidRowsCover(pointages: seq<Pointage>, id: Id, rows: seq<Pointage>)
    requires rows == Filter(pointages, RowOf(id))
    requires forall i :: 0 <= i < |rows| ==> IsPaid()(rows[i])
    ensures forall i :: 0 <= i < |pointages| && pointages[i].employeId == id ==> pointages[i].paye
  {
    forall i | 0 <= i < |pointages| && pointages[i].employeId == id
      ensures pointages[i].paye
    {
      assert pointages[i] in rows;
      var k :| 0 <= k < |rows| && rows[k] == pointages[i];
      assert IsPaid()(rows[k]);
    }
  }

  lemma CoveredRowsPaid(pointages: seq<Pointage>, id: Id, rows: seq<Pointage>)
    requires rows == Filter(pointages, RowOf(id))
    requires forall i :: 0 <= i < |pointages| && pointages[i].employeId == id ==> pointages[i].paye
    ensures forall i :: 0 <= i < |rows| ==> IsPaid()(rows[i])
  {
    forall i | 0 <= i < |rows|
      ensures IsPaid()(rows[i])
    {
      assert rows[i] in pointages && RowOf(id)(rows[i]);
      var j :| 0 <= j < |pointages| && pointages[j] == rows[i];
      assert pointages[j].employeId == id;
    }
  }

  /** A filter keeps every element exactly when the predicate holds of all. */
  lemma {:induction false} AllKeptIffAll<T>(s: seq<T>, p: T -> bool)
    ensures |Filter(s, p)| == |s| <==> forall i :: 0 <= i < |s| ==> p(s[i])
    decreases |s|
  {
    if s != [] {
      var s' := s[..|s| - 1];
      AllKeptIffAll(s', p);
      if !p(s[|s| - 1]) {
        assert |Filter(s, p)| <= |s'|;
      }
      if forall i :: 0 <= i < |s| ==> p(s[i]) {
        assert forall i :: 0 <= i < |s'| ==> p(s'[i]) by {
          forall i | 0 <= i < |s'| ensures p(s'[i]) { assert s'[i] == s[i]; }
        }
      }
    }
  }
}
