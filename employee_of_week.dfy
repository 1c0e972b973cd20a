/** `GET /api/statistics/employee-of-week`: the week runs from the
    `weekStart` parameter (this week's Monday when absent) to the Sunday of
    that date's week; the present-day rows of active employees in that range
    arrive already fetched and are ranked by `PresenceRanking`. */
module EmployeeOfWeek {
  import opened Wrappers
  import opened Seqs
  import opened Records
  import opened Calendar
  import opened PresenceRanking
  import Grouping

  datatype WeekReport = WeekReport(weekStart: int, weekEnd: int, ranking: Ranking)

  /** The week's first day: the parsed `weekStart` parameter, else the
      Monday of today's week; none for a parameter that does not parse. */
  function WeekStartParam(weekStart: DateParam, today: int): (r: Option<int>)
    ensures weekStart.OnDay? ==> r == Some(weekStart.day)
    ensures weekStart.NoDate? ==> r.Some? && Weekday(r.value) == 0 && r.value <= today < r.value + 7
    ensures weekStart.BadDate? <==> r.None?
  {
    match weekStart
    case OnDay(d) => Some(d)
    case NoDate => Some(WeekStart(today))
    case BadDate => None
  }

  const ErrorMessage := "Erreur lors de la récupération de l'employé de la semaine"

  /** The route: `weekEnd` is the Sunday closing the week of `weekStart`,
      even when `weekStart` is not a Monday. A `weekStart` that does not
      parse makes `format` throw, and that, like a failed query, answers
      500. */
  method EmployeeOfWeekRoute(weekStart: DateParam, today: int, rows: Query<seq<JoinedPointage>>)
    returns (r: ApiResult<WeekReport>)
    ensures weekStart.BadDate? || rows.QueryFailed? <==> r == Fail(500, ErrorMessage)
    ensures !weekStart.BadDate? && rows.Answered? <==> r.Ok?
    ensures r.Ok? ==> Some(r.body.weekStart) == WeekStartParam(weekStart, today)
    ensures r.Ok? ==>
      r.body.weekStart <= r.body.weekEnd < r.body.weekStart + 7 && Weekday(r.body.weekEnd) == 6
    ensures r.Ok? && weekStart.NoDate? ==> r.body.weekEnd - r.body.weekStart == 6
    ensures r.Ok? ==>
      var s, g := SortedEntries(rows.value), r.body.ranking;
      g.winner == (if s == [] then None else Some(s[0])) &&
      g.top == Take(s, 5) &&
      g.totalEmployees == |Grouping.GroupKeys(rows.value, RowKey())| &&
      g.totalPresentDays == |rows.value| &&
      g.averagePresentDays ==
        if g.totalEmployees > 0 then (|rows.value| as real) / (g.totalEmployees as real) else 0.0
  {
    var start := WeekStartParam(weekStart, today);
    if start.None? || rows.QueryFailed? {
      return Fail(500, ErrorMessage);
    }
    var end := WeekEnd(start.value);
    var ranking := RankAttendance(rows.value);
    r := Ok(WeekReport(start.value, end, ranking));
  }
}
