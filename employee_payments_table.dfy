/** The employee-payments table: the same rows as the chart, grouped by
    display name, with each name's total, the number of distinct days it
    worked and the average per day; sorted by total, largest first, with the
    grand total of the amounts. */
module EmployeePaymentsTable {
  import opened Wrappers
  import opened Seqs
  import opened Records
  import opened Grouping
  import opened Sorting
  import opened Dictionaries
  import opened EmployeePayments

  /** An entry of `employeeStats` while it fills: `days` is the `Set` of
      dates, in insertion order. */
  datatype NameStats = NameStats(name: string, total: int, days: seq<int>)

  /** A row of the table. */
  datatype TableRow = TableRow(name: string, total: int, days: int, average: real)

  datatype PaymentsTable = PaymentsTable(data: seq<TableRow>, total: int)

  /** `{ name, total: 0, days: new Set() }` */
  function NewStats(): string -> NameStats
  {
    (n: string) => NameStats(n, 0, [])
  }

  /** `total += pointage.montant_realise; days.add(pointage.date)` */
  function AddDay(): (NameStats, JoinedPointage) -> NameStats
  {
    (s: NameStats, p: JoinedPointage) =>
      NameStats(s.name, s.total + Amount(p.row), if p.row.date in s.days then s.days else s.days + [p.row.date])
  }

  /** `p => p.date` */
  function DateOf(): JoinedPointage -> int
  {
    (p: JoinedPointage) => p.row.date
  }

  /** A name's statistics: the sum of its rows' amounts and their distinct
      dates in order of first appearance. */
  lemma {:induction false} StatsFold(f: seq<JoinedPointage>, n: string)
    ensures Fold(f, NewStats()(n), AddDay()) == NameStats(n, SumOf(f, RowAmount()), GroupKeys(f, DateOf()))
    decreases |f|
  {
    if f != [] {
      var f' := f[..|f| - 1];
      var x := f[|f| - 1];
      StatsFold(f', n);
      assert f == f' + [x];
      var prev := Fold(f', NewStats()(n), AddDay());
      assert Fold(f, NewStats()(n), AddDay()) == AddDay()(prev, x);
      SumOfSnoc(f', x, RowAmount());
      GroupKeysSnoc(f', x, DateOf());
    }
  }

  /** `{ name, total, days: days.size, average: days.size > 0 ? total / days.size : 0 }` */
  function ToRow(s: NameStats): TableRow
  {
    var days := |s.days|;
    TableRow(s.name, s.total, days, if days > 0 then s.total as real / days as real else 0.0)
  }

  /** The rows before sorting, one per distinct name. */
  function TableRows(rows: seq<JoinedPointage>): seq<TableRow>
  {
    Map(Map(GroupKeys(rows, NameOf()), Group(rows, NameOf(), NewStats(), AddDay())), ToRow)
  }

  /** A row of the table is a name with rows: its total sums the amounts of
      that name's rows, its `days` counts their distinct dates, which is at
      least one, and its average is the total over the days. */
  lemma TableRowAt(rows: seq<JoinedPointage>, i: int)
    requires 0 <= i < |TableRows(rows)|
    ensures var r := TableRows(rows)[i];
      var f := Filter(rows, InGroup(NameOf(), r.name));
      r.name == GroupKeys(rows, NameOf())[i]
      && r.total == SumOf(f, RowAmount())
      && r.days == |GroupKeys(f, DateOf())|
      && 1 <= r.days <= |f|
      && r.average == r.total as real / r.days as real
  {
    var n := GroupKeys(rows, NameOf())[i];
    var f := Filter(rows, InGroup(NameOf(), n));
    TableRowIsGroup(rows, i);
    StatsFold(f, n);
    NamedRowsNonEmpty(rows, n);
    DistinctKeysAtMostRows(f, DateOf());
  }

  /** The `i`-th row of the table is made from the `i`-th name's rows. */
  lemma TableRowIsGroup(rows: seq<JoinedPointage>, i: int)
    requires 0 <= i < |TableRows(rows)|
    ensures var n := GroupKeys(rows, NameOf())[i];
      TableRows(rows)[i] == ToRow(Fold(Filter(rows, InGroup(NameOf(), n)), NewStats()(n), AddDay()))
  {
  }

  /** A name of the table has at least one row, hence at least one date. */
  lemma NamedRowsNonEmpty(rows: seq<JoinedPointage>, n: string)
    requires n in GroupKeys(rows, NameOf())
    ensures |GroupKeys(Filter(rows, InGroup(NameOf(), n)), DateOf())| >= 1
  {
    var f := Filter(rows, InGroup(NameOf(), n));
    var i :| 0 <= i < |GroupKeys(rows, NameOf())| && GroupKeys(rows, NameOf())[i] == n;
    var j :| 0 <= j < |rows| && NameOf()(rows[j]) == n;
    assert rows[j] in f;
    var k :| 0 <= k < |f| && f[k] == rows[j];
    assert DateOf()(f[k]) in GroupKeys(f, DateOf());
  }

  /** There are no more distinct dates than rows. */
  lemma DistinctKeysAtMostRows(f: seq<JoinedPointage>, key: JoinedPointage -> int)
    ensures |GroupKeys(f, key)| <= |f|
  {
    assert |Map(f, key)| == |f|;
  }

  function RowTotal(): TableRow -> int
  {
    (r: TableRow) => r.total
  }

  /** `(a, b) => b.total - a.total` */
  function ByTotal(): TableRow -> Rank
  {
    (r: TableRow) => Rank(-r.total, 0)
  }

  /** The totals of the table rows add up to the amounts of all rows. */
  lemma TableRowsTotal(rows: seq<JoinedPointage>)
    ensures SumOf(TableRows(rows), RowTotal()) == SumOf(rows, RowAmount())
  {
    var ks := GroupKeys(rows, NameOf());
    forall i | 0 <= i < |ks|
      ensures RowTotal()(TableRows(rows)[i]) == GroupSum(rows, NameOf(), RowAmount())(ks[i])
    {
      TableRowAt(rows, i);
    }
    SumOfPointwise(TableRows(rows), RowTotal(), ks, GroupSum(rows, NameOf(), RowAmount()));
    SumOfGroups(rows, NameOf(), RowAmount());
  }

  /** A list sorted by total is in decreasing total order. */
  lemma TotalsDescend(s: seq<TableRow>)
    requires SortedByRank(s, ByTotal())
    ensures forall i, j :: 0 <= i < j < |s| ==> s[i].total >= s[j].total
  {
    forall i, j | 0 <= i < j < |s|
      ensures s[i].total >= s[j].total
    {
      assert RankLe(ByTotal()(s[i]), ByTotal()(s[j]));
    }
  }

  const ErrorMessage := "Erreur lors de la récupération des données"

  /** `GET /api/statistics/employee-payments-table`: `table` is the
      `pointages` table as the query reads it, or the query's error,
      answered with 500. */
  method EmployeePaymentsTableRoute(period: Option<string>, employee: Option<Id>, today: int,
                                    table: Query<seq<JoinedPointage>>)
    returns (r: ApiResult<PaymentsTable>)
    ensures table.QueryFailed? <==> r == Fail(500, ErrorMessage)
    ensures table.Answered? <==> r.Ok?
    ensures r.Ok? ==> var rows := Fetched(table.value, SinceDate(TextParam(period, "week"), today), employee);
      r.body.data == SortByRank(TableRows(rows), ByTotal())
      && r.body.total == SumOf(rows, RowAmount())
    ensures r.Ok? ==> forall i, j :: 0 <= i < j < |r.body.data| ==> r.body.data[i].total >= r.body.data[j].total
  {
    if table.QueryFailed? {
      return Fail(500, ErrorMessage);
    }
    var since := SinceDate(TextParam(period, "week"), today);
    var rows := Fetched(table.value, since, employee);
    var d := AccumulateRows(rows, NameOf(), NewStats(), AddDay());
    AccumulateValues(rows, NameOf(), NewStats(), AddDay());
    var data := SortByRank(Map(Values(d), ToRow), ByTotal());
    TotalsDescend(data);
    TableRowsTotal(rows);
    SumOfPermutation(data, TableRows(rows), RowTotal());
    r := Ok(PaymentsTable(data, SumOf(data, RowTotal())));
  }
}
