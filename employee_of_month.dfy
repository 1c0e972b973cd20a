/** `GET /api/statistics/employee-of-month`: the month and year come from the
    query string, falling back to the current ones; the present-day rows of
    active employees in that month arrive already fetched and are ranked by
    `PresenceRanking`. */
module EmployeeOfMonth {
  import opened Wrappers
  import opened Seqs
  import opened Records
  import opened Calendar
  import opened PresenceRanking

  datatype MonthReport = MonthReport(month: int, year: int, startDate: int, endDate: int, ranking: Ranking)

  /** `parseInt(param) || fallback`: `None` is a parameter that does not
      parse (`NaN`); a value of 0 falls back as well. */
  function ParamOr(param: Option<int>, fallback: int): (r: int)
    ensures param.None? || param.value == 0 ==> r == fallback
    ensures param.Some? && param.value != 0 ==> r == param.value
  {
    if param.Some? && param.value != 0 then param.value else fallback
  }

  /** The first and the last day of the requested month:
      `new Date(year, month - 1, 1)` and `new Date(year, month, 0)`. */
  function MonthBounds(month: int, year: int): (r: (int, int))
    ensures var c := JsMonth(year, month - 1);
      r.0 == DaysFromCivil(c.year, c.month, 1) && r.1 - r.0 + 1 == DaysInMonth(c.year, c.month)
    ensures 1 <= month <= 12 && !(0 <= year <= 99) ==> JsMonth(year, month - 1) == Civil(year, month, 1)
  {
    JsMonthBounds(year, month);
    (JsDate(year, month - 1, 1), JsDate(year, month, 0))
  }

  const ErrorMessage := "Erreur lors de la récupération de l'employé du mois"

  /** The route. The range holds exactly the days of one month, leap years
      included; with a month in 1..12 and a four-digit year it is that
      month. A failed query answers 500. */
  method EmployeeOfMonthRoute(month: Option<int>, year: Option<int>, today: int, rows: Query<seq<JoinedPointage>>)
    returns (r: ApiResult<MonthReport>)
    ensures rows.QueryFailed? <==> r == Fail(500, ErrorMessage)
    ensures rows.Answered? <==> r.Ok?
    ensures r.Ok? ==> r.body.month == ParamOr(month, CivilFromDays(today).month)
    ensures r.Ok? ==> r.body.year == ParamOr(year, CivilFromDays(today).year)
    ensures r.Ok? ==> (r.body.startDate, r.body.endDate) == MonthBounds(r.body.month, r.body.year)
    ensures r.Ok? ==>
      var s, g := SortedEntries(rows.value), r.body.ranking;
      g.winner == (if s == [] then None else Some(s[0])) &&
      g.top == Take(s, 5) &&
      g.totalEmployees == |Grouping.GroupKeys(rows.value, RowKey())| &&
      g.totalPresentDays == |rows.value| &&
      g.averagePresentDays ==
        if g.totalEmployees > 0 then (|rows.value| as real) / (g.totalEmployees as real) else 0.0
  {
    if rows.QueryFailed? {
      return Fail(500, ErrorMessage);
    }
    var now := CivilFromDays(today);
    var m := ParamOr(month, now.month);
    var y := ParamOr(year, now.year);
    var bounds := MonthBounds(m, y);
    var ranking := RankAttendance(rows.value);
    r := Ok(MonthReport(m, y, bounds.0, bounds.1, ranking));
  }
}
