/** The employee-payments chart: the attendance rows since the start of the
    current period, optionally of one employee, are grouped by the employee's
    display name with their realised amounts summed; the groups are sorted
    by amount, largest first, and the first ten are returned. */
module EmployeePayments {
  import opened Wrappers
  import opened Seqs
  import opened Records
  import opened Calendar
  import opened Grouping
  import opened Sorting
  import opened Dictionaries

  // ---------------------------------------------------------------- query

  /** The first day fetched for `period` (itself `searchParams.get('period')
      || 'week'`): the start of the current week, month, quarter or year,
      and the week for any other value. */
  function SinceDate(period: string, today: int): (r: int)
    ensures r <= today
    ensures period == "month" ==> r == MonthStart(today)
    ensures period == "quarter" ==> r == QuarterStart(today)
    ensures period == "year" ==> r == YearStart(today)
    ensures period != "month" && period != "quarter" && period != "year"
        ==> r == WeekStart(today) && Weekday(r) == 0 && today - r < 7
  {
    PeriodStartsOrdered(today);
    if period == "month" then MonthStart(today)
    else if period == "quarter" then QuarterStart(today)
    else if period == "year" then YearStart(today)
    else WeekStart(today)
  }

  /** `p => p.date >= since && (employeeId === 'all' || p.employe_id == employeeId)`;
      `employee` is `None` for `'all'`. */
  function Wanted(since: int, employee: Option<Id>): JoinedPointage -> bool
  {
    (p: JoinedPointage) => p.row.date >= since && (employee.None? || p.row.employeId == employee.value)
  }

  /** The rows the query returns: those dated from `since` on, and of the
      one employee asked for unless it is `'all'`. */
  function Fetched(table: seq<JoinedPointage>, since: int, employee: Option<Id>): (r: seq<JoinedPointage>)
    ensures forall i :: 0 <= i < |r| ==> r[i].row.date >= since
    ensures employee.Some? ==> forall i :: 0 <= i < |r| ==> r[i].row.employeId == employee.value
    ensures forall i :: 0 <= i < |table| && Wanted(since, employee)(table[i]) ==> table[i] in r
  {
    Filter(table, Wanted(since, employee))
  }

  /** With `'all'`, the only filter is the date. */
  lemma AllFiltersNoEmployee(table: seq<JoinedPointage>, since: int, i: int)
    requires 0 <= i < |table| && table[i].row.date >= since
    ensures table[i] in Fetched(table, since, None)
  {
  }

  // ---------------------------------------------------------------- grouping by name

  /** `${p.employes?.prenom} ${p.employes?.nom}`: without an embedded
      employee both parts print as `undefined`. */
  function DisplayName(p: JoinedPointage): string
  {
    if p.employe.Some? then p.employe.value.prenom + " " + p.employe.value.nom
    else "undefined undefined"
  }

  function NameOf(): JoinedPointage -> string
  {
    (p: JoinedPointage) => DisplayName(p)
  }

  datatype ChartEntry = ChartEntry(name: string, amount: int)

  /** `{ name, amount: 0 }` */
  function NewChartEntry(): string -> ChartEntry
  {
    (n: string) => ChartEntry(n, 0)
  }

  /** `amount += pointage.montant_realise` (a `null` amount adds 0). */
  function AddAmount(): (ChartEntry, JoinedPointage) -> ChartEntry
  {
    (e: ChartEntry, p: JoinedPointage) => e.(amount := e.amount + Amount(p.row))
  }

  /** A name's entry holds the sum of the amounts of its rows. */
  lemma {:induction false} ChartFold(f: seq<JoinedPointage>, n: string)
    ensures Fold(f, NewChartEntry()(n), AddAmount()) == ChartEntry(n, SumOf(f, RowAmount()))
    decreases |f|
  {
    if f != [] {
      ChartFold(f[..|f| - 1], n);
    }
  }

  /** `Object.values(employeePayments)` as a function of the fetched rows. */
  function ChartEntries(rows: seq<JoinedPointage>): seq<ChartEntry>
  {
    Map(GroupKeys(rows, NameOf()), Group(rows, NameOf(), NewChartEntry(), AddAmount()))
  }

  /** Each entry is a distinct name of the rows, with the amounts of exactly
      that name's rows summed: two employees who share a name share an entry. */
  lemma ChartEntryAt(rows: seq<JoinedPointage>, i: int)
    requires 0 <= i < |ChartEntries(rows)|
    ensures ChartEntries(rows)[i].name == GroupKeys(rows, NameOf())[i]
    ensures ChartEntries(rows)[i].amount
         == SumOf(Filter(rows, InGroup(NameOf(), ChartEntries(rows)[i].name)), RowAmount())
  {
    var n := GroupKeys(rows, NameOf())[i];
    ChartFold(Filter(rows, InGroup(NameOf(), n)), n);
  }

  function EntryAmount(): ChartEntry -> int
  {
    (e: ChartEntry) => e.amount
  }

  /** The entries add up to the amounts of all fetched rows. */
  lemma ChartEntriesTotal(rows: seq<JoinedPointage>)
    ensures SumOf(ChartEntries(rows), EntryAmount()) == SumOf(rows, RowAmount())
  {
    var ks := GroupKeys(rows, NameOf());
    forall i | 0 <= i < |ks|
      ensures EntryAmount()(ChartEntries(rows)[i]) == GroupSum(rows, NameOf(), RowAmount())(ks[i])
    {
      ChartEntryAt(rows, i);
    }
    SumOfPointwise(ChartEntries(rows), EntryAmount(), ks, GroupSum(rows, NameOf(), RowAmount()));
    SumOfGroups(rows, NameOf(), RowAmount());
  }

  /** `(a, b) => b.amount - a.amount` */
  function ByAmount(): ChartEntry -> Rank
  {
    (e: ChartEntry) => Rank(-e.amount, 0)
  }

  function SortedChart(rows: seq<JoinedPointage>): seq<ChartEntry>
  {
    SortByRank(ChartEntries(rows), ByAmount())
  }

  const ErrorMessage := "Erreur lors de la récupération des données"

  /** `GET /api/statistics/employee-payments`: `table` is the `pointages`
      table as the query reads it, or the query's error, answered with 500. */
  method EmployeePaymentsRoute(period: Option<string>, employee: Option<Id>, today: int,
                               table: Query<seq<JoinedPointage>>)
    returns (r: ApiResult<seq<ChartEntry>>)
    ensures table.QueryFailed? <==> r == Fail(500, ErrorMessage)
    ensures table.Answered? <==> r.Ok?
    ensures r.Ok? ==> var rows := Fetched(table.value, SinceDate(TextParam(period, "week"), today), employee);
      r.body == Take(SortedChart(rows), 10)
    ensures r.Ok? ==> |r.body| <= 10
    ensures r.Ok? ==> forall i, j :: 0 <= i < j < |r.body| ==> r.body[i].amount >= r.body[j].amount
  {
    if table.QueryFailed? {
      return Fail(500, ErrorMessage);
    }
    var since := SinceDate(TextParam(period, "week"), today);
    var rows := Fetched(table.value, since, employee);
    var d := AccumulateRows(rows, NameOf(), NewChartEntry(), AddAmount());
    AccumulateValues(rows, NameOf(), NewChartEntry(), AddAmount());
    var sorted := SortByRank(Values(d), ByAmount());
    AmountsDescend(sorted, 10);
    r := Ok(Take(sorted, 10));
  }

  /** A prefix of a list sorted by amount is in decreasing amount order. */
  lemma AmountsDescend(s: seq<ChartEntry>, n: nat)
    requires SortedByRank(s, ByAmount())
    ensures forall i, j :: 0 <= i < j < |Take(s, n)| ==> Take(s, n)[i].amount >= Take(s, n)[j].amount
  {
    forall i, j | 0 <= i < j < |Take(s, n)|
      ensures Take(s, n)[i].amount >= Take(s, n)[j].amount
    {
      assert RankLe(ByAmount()(s[i]), ByAmount()(s[j]));
    }
  }

  /** The chart is the top ten: every entry left out has no more than any
      entry shown. */
  lemma ChartIsTopTen(rows: seq<JoinedPointage>, i: int, j: int)
    requires 0 <= i < |Take(SortedChart(rows), 10)| <= j < |SortedChart(rows)|
    ensures SortedChart(rows)[j].amount <= Take(SortedChart(rows), 10)[i].amount
  {
    assert RankLe(ByAmount()(SortedChart(rows)[i]), ByAmount()(SortedChart(rows)[j]));
  }

  /** Every entry of the sorted list is one of the name groups. */
  lemma SortedAreGroups(rows: seq<JoinedPointage>, i: int)
    requires 0 <= i < |SortedChart(rows)|
    ensures exists k :: 0 <= k < |ChartEntries(rows)| && SortedChart(rows)[i] == ChartEntries(rows)[k]
  {
    var e := SortedChart(rows)[i];
    assert e in multiset(SortedChart(rows));
    assert e in ChartEntries(rows);
  }

  /** Two rows with the same display name: one key, and one group holding
      both rows. */
  lemma TwoRowsOneName(p1: JoinedPointage, p2: JoinedPointage, name: string)
    requires NameOf()(p1) == name && NameOf()(p2) == name
    ensures GroupKeys([p1, p2], NameOf()) == [name]
    ensures Filter([p1, p2], InGroup(NameOf(), name)) == [p1, p2]
    ensures SumOf([p1, p2], RowAmount()) == Amount(p1.row) + Amount(p2.row)
  {
    assert [] + [p1] == [p1] && [p1] + [p2] == [p1, p2];
    GroupKeysSnoc([], p1, NameOf());
    GroupKeysSnoc([p1], p2, NameOf());
    FilterSnoc([], p1, InGroup(NameOf(), name));
    FilterSnoc([p1], p2, InGroup(NameOf(), name));
    SumOfSnoc([], p1, RowAmount());
    SumOfSnoc([p1], p2, RowAmount());
  }

  /** Two employees with the same name are one chart entry. */
  lemma SameNameMerges()
    ensures var ali := EmployeeRef("Ali", "B", None);
      var p1 := JoinedPointage(Pointage(1, 0, Present, "", Some(10), false, None), Some(ali));
      var p2 := JoinedPointage(Pointage(2, 0, Present, "", Some(20), false, None), Some(ali));
      ChartEntries([p1, p2]) == [ChartEntry("Ali B", 30)]
  {
    var ali := EmployeeRef("Ali", "B", None);
    var p1 := JoinedPointage(Pointage(1, 0, Present, "", Some(10), false, None), Some(ali));
    var p2 := JoinedPointage(Pointage(2, 0, Present, "", Some(20), false, None), Some(ali));
    var rows := [p1, p2];
    assert NameOf()(p1) == "Ali B" && NameOf()(p2) == "Ali B";
    TwoRowsOneName(p1, p2, "Ali B");
    assert |ChartEntries(rows)| == 1;
    ChartEntryAt(rows, 0);
  }
}
