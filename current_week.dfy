/** The current week of one employee (`GET /api/employees/current-week`):
    day counts, realised amount, salary, the granted advances and what is
    left to pay. The employee's rows and advances of the week arrive already
    fetched. */
module CurrentWeek {
  import opened Wrappers
  import opened Seqs
  import opened Records
  import WeeklyPayroll

  datatype CurrentWeekStats = CurrentWeekStats(
    totalDays: int,
    presentDays: int,
    absentDays: int,
    restDays: int,
    totalAmount: int,
    totalSalary: int,
    totalAdvances: int,
    remainingAmount: int)

  const MissingIdMessage := "ID de l'employé requis"

  /** The week's totals; only granted advances count, and the remainder is
      taken from the realised amount, not from the salary. */
  function StatsOf(e: Employee, rows: seq<Pointage>, avs: seq<Advance>): CurrentWeekStats
  {
    var presentDays := |Filter(rows, DayStatusIs(Present))|;
    var totalAmount := SumOf(rows, Amount);
    var totalAdvances := SumOf(Filter(avs, Settled()), AdvanceAmount);
    CurrentWeekStats(
      |rows|,
      presentDays,
      |Filter(rows, DayStatusIs(Absent))|,
      |Filter(rows, DayStatusIs(Rest))|,
      totalAmount,
      presentDays * OrZero(e.salaireJour),
      totalAdvances,
      totalAmount - totalAdvances)
  }

  const ErrorMessage := "Erreur lors de la récupération des données de la semaine"

  /** The route: a missing `employeeId` is answered with 400 before any
      query; then the employee lookup (`.single()`, which fails when no
      employee has that id), the week's rows and the week's advances are
      read, and an error in any of them is answered with 500. */
  function CurrentWeekRoute(employeeId: Option<string>, e: Query<Employee>,
                            rows: Query<seq<Pointage>>, avs: Query<seq<Advance>>)
    : (r: ApiResult<CurrentWeekStats>)
    ensures Missing(employeeId) <==> r == Fail(400, MissingIdMessage)
    ensures !Missing(employeeId) && (e.QueryFailed? || rows.QueryFailed? || avs.QueryFailed?)
        <==> r == Fail(500, ErrorMessage)
    ensures r.Ok? <==> !Missing(employeeId) && e.Answered? && rows.Answered? && avs.Answered?
    ensures r.Ok? ==> r.body == StatsOf(e.value, rows.value, avs.value)
    ensures r.Ok? ==>
      r.body.totalDays == |rows.value| &&
      r.body.presentDays == |Filter(rows.value, DayStatusIs(Present))| &&
      r.body.absentDays == |Filter(rows.value, DayStatusIs(Absent))| &&
      r.body.restDays == |Filter(rows.value, DayStatusIs(Rest))| &&
      r.body.totalAmount == SumOf(rows.value, Amount) &&
      r.body.totalSalary == r.body.presentDays * OrZero(e.value.salaireJour) &&
      r.body.totalAdvances == SumOf(Filter(avs.value, Settled()), AdvanceAmount) &&
      r.body.remainingAmount == r.body.totalAmount - r.body.totalAdvances
  {
    if Missing(employeeId) then Fail(400, MissingIdMessage)
    else if e.QueryFailed? || rows.QueryFailed? || avs.QueryFailed? then Fail(500, ErrorMessage)
    else Ok(StatsOf(e.value, rows.value, avs.value))
  }

  /** The counts, the realised amount and the salary are those the weekly
      payroll view computes from the same rows. */
  lemma AgreesWithWeeklyView(e: Employee, rows: seq<Pointage>, avs: seq<Advance>)
    ensures var c := StatsOf(e, rows, avs);
      var w := WeeklyPayroll.StatsOf(e, rows, avs);
      c.totalDays == w.totalDays && c.presentDays == w.presentDays &&
      c.absentDays == w.absentDays && c.restDays == w.restDays &&
      c.totalAmount == w.totalAmount && c.totalSalary == w.totalSalary
  {
  }

  /** A pending or refused advance never changes the remainder; a granted
      one lowers it by its amount. */
  lemma OnlyGrantedAdvancesCount(e: Employee, rows: seq<Pointage>, avs: seq<Advance>, a: Advance)
    ensures !IsSettled(a) ==>
      StatsOf(e, rows, avs + [a]).remainingAmount == StatsOf(e, rows, avs).remainingAmount
    ensures IsSettled(a) ==>
      StatsOf(e, rows, avs + [a]).remainingAmount == StatsOf(e, rows, avs).remainingAmount - a.montant
  {
    assert (avs + [a])[..|avs|] == avs;
    if !IsSettled(a) {
      assert Filter(avs + [a], Settled()) == Filter(avs, Settled());
    } else {
      SumOfSnoc(Filter(avs, Settled()), a, AdvanceAmount);
    }
  }

  /** The two remainders differ by the salary not yet realised and by the
      advances that are not granted:
      weekly − current = (salary − realised) − (all advances − granted ones). */
  lemma RemaindersCompared(e: Employee, rows: seq<Pointage>, avs: seq<Advance>)
    ensures WeeklyPayroll.StatsOf(e, rows, avs).remainingAmount - StatsOf(e, rows, avs).remainingAmount
         == (StatsOf(e, rows, avs).totalSalary - StatsOf(e, rows, avs).totalAmount)
          - SumOf(Filter(avs, Negate(Settled())), AdvanceAmount)
  {
    SumOfSplit(avs, Settled(), AdvanceAmount);
  }

  /** One present day at rate 10 with nothing realised and one pending
      advance of 5: the weekly view leaves 5 to pay, this route 0. */
  lemma RemaindersDisagree()
    ensures var e := Employee(1, "Ali", "Ben", Active, Some(10), None);
      var rows := [Pointage(1, 0, Present, "Matin", None, false, None)];
      var avs := [Advance(1, 5, 0, "", Pending)];
      WeeklyPayroll.StatsOf(e, rows, avs).remainingAmount == 5 &&
      StatsOf(e, rows, avs).remainingAmount == 0
  {
    var e := Employee(1, "Ali", "Ben", Active, Some(10), None);
    var rows := [Pointage(1, 0, Present, "Matin", None, false, None)];
    var avs := [Advance(1, 5, 0, "", Pending)];
    assert Filter(rows, DayStatusIs(Present)) == rows;
    assert SumOf(rows, Amount) == 0;
    assert SumOf(avs, AdvanceAmount) == 5;
    assert !Settled()(avs[0]);
    assert Filter(avs, Settled()) == [];
  }
}
