/** The salary-payments statistics: the paid attendance rows of a date range
    are spread over the weeks, months or years of that range, which are laid
    out in advance (`groupedData`); each period collects the daily wages paid,
    the amounts realised and the employees seen. The periods are returned in
    chronological order with global totals.

    A period is named by a number: its week number (`Calendar.WeekNumber`),
    month index (`Calendar.MonthIndex`) or year. Each number stands for one
    `yyyy-MM-dd`, `yyyy-MM` or `yyyy` key of the route, and the numbers
    increase with the dates the keys parse to. */
module SalaryPayments {
  import opened Wrappers
  import opened Seqs
  import opened Records
  import opened Calendar
  import opened Grouping
  import opened Sorting

  /** One entry of `groupedData`; `employees` is its `Set` of employee ids,
      in insertion order as `Array.from` lists them. */
  datatype SalaryBucket = SalaryBucket(
    period: int,
    totalSalary: int,
    totalAmount: int,
    employeeCount: int,
    employees: seq<Id>)

  datatype GlobalStats = GlobalStats(
    totalSalary: int,
    totalAmount: int,
    totalEmployees: int,
    averageSalaryPerPeriod: real)

  datatype SalaryReport = SalaryReport(
    period: string,
    startDate: int,
    endDate: int,
    data: seq<SalaryBucket>,
    globalStats: GlobalStats)

  // ---------------------------------------------------------------- range and periods

  /** `startDateStr && endDateStr`: both date parameters are present and
      non-empty. */
  predicate BothGiven(startDate: DateParam, endDate: DateParam)
  {
    !startDate.NoDate? && !endDate.NoDate?
  }

  /** The range: `startDate` and `endDate` when both are given, otherwise the
      current week (Monday to Sunday), year, or month for any other value.
      When both are given and one of them does not parse there is no range:
      `format` throws on it. */
  function DateRange(period: string, startDate: DateParam, endDate: DateParam, today: int): (r: Option<(int, int)>)
    ensures startDate.OnDay? && endDate.OnDay? ==> r == Some((startDate.day, endDate.day))
    ensures r.None? <==> BothGiven(startDate, endDate) && (startDate.BadDate? || endDate.BadDate?)
    ensures !BothGiven(startDate, endDate) ==> r.Some? && r.value.0 <= today
    ensures !BothGiven(startDate, endDate) && period == "week"
        ==> r.Some? && Weekday(r.value.0) == 0 && r.value.1 == r.value.0 + 6 && r.value.0 <= today <= r.value.1
    ensures !BothGiven(startDate, endDate) && period == "year"
        ==> r == Some((YearStart(today), YearEnd(today)))
    ensures !BothGiven(startDate, endDate) && period != "week" && period != "year"
        ==> r == Some((MonthStart(today), MonthEnd(today)))
  {
    PeriodStartsOrdered(today);
    if BothGiven(startDate, endDate) then
      (if startDate.OnDay? && endDate.OnDay? then Some((startDate.day, endDate.day)) else None)
    else if period == "week" then Some((WeekStart(today), WeekEnd(today)))
    else if period == "year" then Some((YearStart(today), YearEnd(today)))
    else Some((MonthStart(today), MonthEnd(today)))
  }

  /** The period values that lay out buckets. */
  predicate Known(period: string)
  {
    period == "week" || period == "month" || period == "year"
  }

  /** The number of the period holding day `d`. */
  function PeriodNumber(period: string, d: int): int
  {
    if period == "week" then WeekNumber(d)
    else if period == "month" then MonthIndex(d)
    else CivilFromDays(d).year
  }

  /** The consecutive integers from `lo` to `hi`. */
  function Range(lo: int, hi: int): (r: seq<int>)
    ensures forall i :: 0 <= i < |r| ==> r[i] == lo + i
    ensures forall k :: k in r <==> lo <= k <= hi
  {
    var r := seq(if lo <= hi then hi - lo + 1 else 0, i => lo + i);
    forall k | lo <= k <= hi
      ensures k in r
    {
      assert r[k - lo] == k;
    }
    r
  }

  /** `eachWeekOfInterval`, `eachMonthOfInterval` or `eachYearOfInterval`
      from `start` to `end`: every period from that of `start` to that of
      `end`; none for any other period value. */
  function Periods(period: string, start: int, end: int): (r: seq<int>)
    ensures !Known(period) ==> r == []
    ensures Distinct(r)
  {
    if Known(period) then Range(PeriodNumber(period, start), PeriodNumber(period, end)) else []
  }

  /** `p => periodKey(p)` */
  function RowPeriod(period: string): JoinedPointage -> int
  {
    (p: JoinedPointage) => PeriodNumber(period, p.row.date)
  }

  /** A row finds its bucket exactly when its period lies between the period
      of the start and that of the end of the range. */
  lemma RowListed(period: string, start: int, end: int, p: JoinedPointage)
    requires Known(period)
    ensures RowPeriod(period)(p) in Periods(period, start, end)
        <==> PeriodNumber(period, start) <= PeriodNumber(period, p.row.date) <= PeriodNumber(period, end)
  {
  }

  /** By weeks, every row the query returns (dated within the range) finds
      its bucket. */
  lemma FetchedWeekRowsListed(start: int, end: int, p: JoinedPointage)
    requires start <= p.row.date <= end
    ensures RowPeriod("week")(p) in Periods("week", start, end)
  {
    WeekNumberMonotone(start, p.row.date);
    WeekNumberMonotone(p.row.date, end);
    RowListed("week", start, end, p);
  }

  // ---------------------------------------------------------------- buckets

  function EmptyBucket(k: int): SalaryBucket
  {
    SalaryBucket(k, 0, 0, 0, [])
  }

  /** The bucket of period `k` once every row is counted: the wages and
      amounts of its rows summed, and its employees in order of first
      appearance. */
  function BucketOf(rows: seq<JoinedPointage>, period: string, k: int): SalaryBucket
  {
    Totals(k, Filter(rows, InGroup(RowPeriod(period), k)))
  }

  /** A bucket of period `k` holding the rows `f`. */
  function Totals(k: int, f: seq<JoinedPointage>): SalaryBucket
  {
    var ids := GroupKeys(f, RowKey());
    SalaryBucket(k, SumOf(f, RowWage()), SumOf(f, RowAmount()), |ids|, ids)
  }

  /** Counting one row in its bucket (lines 125-129). */
  function AddPayment(b: SalaryBucket, p: JoinedPointage): SalaryBucket
  {
    var ids := if p.row.employeId in b.employees then b.employees else b.employees + [p.row.employeId];
    SalaryBucket(b.period, b.totalSalary + RowWage()(p), b.totalAmount + Amount(p.row), |ids|, ids)
  }

  lemma TotalsSnoc(k: int, f: seq<JoinedPointage>, p: JoinedPointage)
    ensures Totals(k, f + [p]) == AddPayment(Totals(k, f), p)
  {
    SumOfSnoc(f, p, RowWage());
    SumOfSnoc(f, p, RowAmount());
    GroupKeysSnoc(f, p, RowKey());
  }

  /** One more row changes the bucket of its own period only, by counting it. */
  lemma BucketOfSnoc(rows: seq<JoinedPointage>, p: JoinedPointage, period: string, k: int)
    ensures BucketOf(rows + [p], period, k)
         == if RowPeriod(period)(p) == k then AddPayment(BucketOf(rows, period, k), p)
            else BucketOf(rows, period, k)
  {
    var f := Filter(rows, InGroup(RowPeriod(period), k));
    assert (rows + [p])[..|rows|] == rows;
    if RowPeriod(period)(p) == k {
      assert Filter(rows + [p], InGroup(RowPeriod(period), k)) == f + [p];
      TotalsSnoc(k, f, p);
    } else {
      assert Filter(rows + [p], InGroup(RowPeriod(period), k)) == f;
    }
  }

  /** A bucket counts each of its employees once, and lists exactly the
      employees of the rows of its period. */
  lemma BucketEmployees(rows: seq<JoinedPointage>, period: string, k: int, id: Id)
    ensures Distinct(BucketOf(rows, period, k).employees)
    ensures BucketOf(rows, period, k).employeeCount == |BucketOf(rows, period, k).employees|
    ensures id in BucketOf(rows, period, k).employees
        <==> exists j :: 0 <= j < |rows| && RowPeriod(period)(rows[j]) == k && rows[j].row.employeId == id
  {
    var f := Filter(rows, InGroup(RowPeriod(period), k));
    var ids := GroupKeys(f, RowKey());
    if id in ids {
      var i :| 0 <= i < |ids| && ids[i] == id;
      var j :| 0 <= j < |f| && RowKey()(f[j]) == ids[i];
      assert f[j] in rows;
      var j' :| 0 <= j' < |rows| && rows[j'] == f[j];
      assert RowPeriod(period)(rows[j']) == k;
    }
    if exists j :: 0 <= j < |rows| && RowPeriod(period)(rows[j]) == k && rows[j].row.employeId == id {
      var j :| 0 <= j < |rows| && RowPeriod(period)(rows[j]) == k && rows[j].row.employeId == id;
      assert rows[j] in f;
      var i :| 0 <= i < |f| && f[i] == rows[j];
      assert RowKey()(f[i]) in ids;
    }
  }

  // ---------------------------------------------------------------- groupedData

  /** `groupedData` with its keys in insertion order. */
  datatype SalaryDict = SalaryDict(keys: seq<int>, buckets: map<int, SalaryBucket>)

  /** `periods.forEach(p => groupedData[key(p)] = { …zeros… })` */
  function Layout(periods: seq<int>): SalaryDict
  {
    if periods == [] then SalaryDict([], map[])
    else
      var d := Layout(periods[..|periods| - 1]);
      var k := periods[|periods| - 1];
      SalaryDict(if k in d.buckets then d.keys else d.keys + [k], d.buckets[k := EmptyBucket(k)])
  }

  /** Laying out distinct periods gives one empty bucket per period, keyed in
      their order. */
  lemma {:induction false} LayoutKeys(periods: seq<int>)
    requires Distinct(periods)
    ensures Layout(periods).keys == periods
    ensures Layout(periods).buckets.Keys == set k | k in periods
  {
    if periods != [] {
      var ps := periods[..|periods| - 1];
      assert Distinct(ps);
      LayoutKeys(ps);
      assert periods == ps + [periods[|periods| - 1]];
    }
  }

  lemma {:induction false} LayoutAt(periods: seq<int>, k: int)
    requires k in Layout(periods).buckets
    ensures Layout(periods).buckets[k] == EmptyBucket(k)
  {
    if periods != [] && periods[|periods| - 1] != k {
      LayoutAt(periods[..|periods| - 1], k);
    }
  }

  /** `pointages.forEach(…)` (lines 110-131): a row whose period has a bucket
      is counted in it; any other row is dropped. */
  function Fill(rows: seq<JoinedPointage>, period: string, d0: SalaryDict): SalaryDict
  {
    if rows == [] then d0
    else
      var d := Fill(rows[..|rows| - 1], period, d0);
      var p := rows[|rows| - 1];
      var k := RowPeriod(period)(p);
      if Known(period) && k in d.buckets then SalaryDict(d.keys, d.buckets[k := AddPayment(d.buckets[k], p)])
      else d
  }

  /** Filling adds no key and removes none. */
  lemma {:induction false} FillFrame(rows: seq<JoinedPointage>, period: string, d0: SalaryDict)
    ensures Fill(rows, period, d0).keys == d0.keys
    ensures Fill(rows, period, d0).buckets.Keys == d0.buckets.Keys
  {
    if rows != [] {
      FillFrame(rows[..|rows| - 1], period, d0);
    }
  }

  /** A bucket laid out empty ends up as the bucket of its period. */
  lemma {:induction false} FillAt(rows: seq<JoinedPointage>, period: string, d0: SalaryDict, k: int)
    requires Known(period)
    requires k in d0.buckets && d0.buckets[k] == EmptyBucket(k)
    ensures k in Fill(rows, period, d0).buckets
    ensures Fill(rows, period, d0).buckets[k] == BucketOf(rows, period, k)
  {
    if rows == [] {
      assert Filter(rows, InGroup(RowPeriod(period), k)) == [];
    } else {
      var rs := rows[..|rows| - 1];
      var p := rows[|rows| - 1];
      assert rows == rs + [p];
      FillAt(rs, period, d0, k);
      FillStep(rs, p, period, d0, k);
      BucketOfSnoc(rs, p, period, k);
    }
  }

  /** One more row changes the bucket of its own period only, by counting it. */
  lemma FillStep(rows: seq<JoinedPointage>, p: JoinedPointage, period: string, d0: SalaryDict, k: int)
    requires Known(period)
    requires k in Fill(rows, period, d0).buckets
    ensures k in Fill(rows + [p], period, d0).buckets
    ensures Fill(rows + [p], period, d0).buckets[k]
         == if RowPeriod(period)(p) == k then AddPayment(Fill(rows, period, d0).buckets[k], p)
            else Fill(rows, period, d0).buckets[k]
  {
    assert (rows + [p])[..|rows|] == rows;
  }

  method LayOut(periods: seq<int>) returns (d: SalaryDict)
    ensures d == Layout(periods)
  {
    d := SalaryDict([], map[]);
    var i := 0;
    while i < |periods|
      invariant 0 <= i <= |periods|
      invariant d == Layout(periods[..i])
    {
      var k := periods[i];
      if k !in d.buckets {
        d := d.(keys := d.keys + [k]);
      }
      d := d.(buckets := d.buckets[k := EmptyBucket(k)]);
      assert periods[..i + 1][..i] == periods[..i];
      i := i + 1;
    }
    assert periods[..i] == periods;
  }

  method FillBuckets(rows: seq<JoinedPointage>, period: string, d0: SalaryDict) returns (d: SalaryDict)
    ensures d == Fill(rows, period, d0)
  {
    d := d0;
    var i := 0;
    while i < |rows|
      invariant 0 <= i <= |rows|
      invariant d == Fill(rows[..i], period, d0)
    {
      var p := rows[i];
      var k := PeriodNumber(period, p.row.date);
      if Known(period) && k in d.buckets {
        d := d.(buckets := d.buckets[k := AddPayment(d.buckets[k], p)]);
      }
      assert rows[..i + 1][..i] == rows[..i];
      i := i + 1;
    }
    assert rows[..i] == rows;
  }

  /** `Object.values(groupedData)` after laying out `periods` and counting
      the rows: the bucket of each period, in the periods' order. */
  method GroupedValues(rows: seq<JoinedPointage>, period: string, periods: seq<int>)
    returns (values: seq<SalaryBucket>)
    requires Known(period) || periods == []
    requires Distinct(periods)
    ensures |values| == |periods|
    ensures forall i :: 0 <= i < |periods| ==> values[i] == BucketOf(rows, period, periods[i])
  {
    var d0 := LayOut(periods);
    var d := FillBuckets(rows, period, d0);
    LayoutKeys(periods);
    FillFrame(rows, period, d0);
    values := seq(|d.keys|, i requires 0 <= i < |d.keys| => d.buckets[d.keys[i]]);
    forall i | 0 <= i < |periods|
      ensures values[i] == BucketOf(rows, period, periods[i])
    {
      LayoutAt(periods, periods[i]);
      FillAt(rows, period, d0, periods[i]);
    }
  }

  // ---------------------------------------------------------------- result

  /** `(a, b) => new Date(a.period) - new Date(b.period)` */
  function ByPeriod(): SalaryBucket -> Rank
  {
    (b: SalaryBucket) => Rank(b.period, 0)
  }

  function BucketSalary(): SalaryBucket -> int
  {
    (b: SalaryBucket) => b.totalSalary
  }

  function BucketAmount(): SalaryBucket -> int
  {
    (b: SalaryBucket) => b.totalAmount
  }

  /** The rows whose period has a bucket. */
  function Counted(rows: seq<JoinedPointage>, period: string, start: int, end: int): seq<JoinedPointage>
  {
    Filter(rows, KeyIn(RowPeriod(period), Periods(period, start, end)))
  }

  /** The buckets of the periods, in period order, add up to the totals
      over the rows that have a bucket. */
  lemma BucketTotals(rows: seq<JoinedPointage>, period: string, start: int, end: int, values: seq<SalaryBucket>)
    requires var ps := Periods(period, start, end);
      |values| == |ps| && forall i :: 0 <= i < |ps| ==> values[i] == BucketOf(rows, period, ps[i])
    ensures SumOf(values, BucketSalary()) == SumOf(Counted(rows, period, start, end), RowWage())
    ensures SumOf(values, BucketAmount()) == SumOf(Counted(rows, period, start, end), RowAmount())
  {
    var ps := Periods(period, start, end);
    SumOfPointwise(values, BucketSalary(), ps, GroupSum(rows, RowPeriod(period), RowWage()));
    SumOfListedGroups(rows, RowPeriod(period), RowWage(), ps);
    SumOfPointwise(values, BucketAmount(), ps, GroupSum(rows, RowPeriod(period), RowAmount()));
    SumOfListedGroups(rows, RowPeriod(period), RowAmount(), ps);
  }

  const ErrorMessage := "Erreur lors de la récupération des statistiques de salaires"

  /** The report of the route once the rows are fetched: the buckets of
      the enumerated periods in ascending order, and the global totals. */
  method Report(p: string, range: (int, int), rows: seq<JoinedPointage>) returns (b: SalaryReport)
    ensures b.period == p && (b.startDate, b.endDate) == range
    ensures var ps := Periods(p, range.0, range.1);
      |b.data| == |ps| && forall i :: 0 <= i < |ps| ==> b.data[i] == BucketOf(rows, p, ps[i])
    ensures !Known(p) ==> b.data == []
    ensures forall i, j :: 0 <= i < j < |b.data| ==> b.data[i].period < b.data[j].period
    ensures b.globalStats.totalSalary == SumOf(Counted(rows, p, range.0, range.1), RowWage())
    ensures b.globalStats.totalAmount == SumOf(Counted(rows, p, range.0, range.1), RowAmount())
    ensures b.globalStats.totalEmployees == |GroupKeys(rows, RowKey())|
    ensures var g := b.globalStats;
      g.averageSalaryPerPeriod == if |b.data| > 0 then g.totalSalary as real / |b.data| as real else 0.0
  {
    var periods := Periods(p, range.0, range.1);
    var values := GroupedValues(rows, p, periods);
    assert SortedByRank(values, ByPeriod());
    SortOfSorted(values, ByPeriod());
    var data := SortByRank(values, ByPeriod());
    BucketTotals(rows, p, range.0, range.1, data);
    var totalSalary := SumOf(data, BucketSalary());
    var totalAmount := SumOf(data, BucketAmount());
    var average := if |data| > 0 then totalSalary as real / |data| as real else 0.0;
    b := SalaryReport(p, range.0, range.1, data,
      GlobalStats(totalSalary, totalAmount, |GroupKeys(rows, RowKey())|, average));
  }

  /** `GET /api/statistics/salary-payments`: `fetched` is the paid rows of
      the range, ordered by date, or the query's error. Both that error and
      a given date that does not parse are answered with 500. */
  method SalaryPaymentsRoute(period: Option<string>, startDate: DateParam, endDate: DateParam,
                             today: int, fetched: Query<seq<JoinedPointage>>)
    returns (r: ApiResult<SalaryReport>)
    ensures fetched.QueryFailed? || (BothGiven(startDate, endDate) && (startDate.BadDate? || endDate.BadDate?))
        <==> r == Fail(500, ErrorMessage)
    ensures r.Ok? <==> fetched.Answered? && DateRange(TextParam(period, "month"), startDate, endDate, today).Some?
    ensures r.Ok? ==> r.body.period == TextParam(period, "month")
    ensures r.Ok? ==> Some((r.body.startDate, r.body.endDate)) == DateRange(r.body.period, startDate, endDate, today)
    ensures r.Ok? ==> var rows, b := fetched.value, r.body;
      var ps := Periods(b.period, b.startDate, b.endDate);
      |b.data| == |ps| && forall i :: 0 <= i < |ps| ==> b.data[i] == BucketOf(rows, b.period, ps[i])
    ensures r.Ok? ==> !Known(r.body.period) ==> r.body.data == []
    ensures r.Ok? ==> forall i, j :: 0 <= i < j < |r.body.data| ==> r.body.data[i].period < r.body.data[j].period
    ensures r.Ok? ==> var rows, b := fetched.value, r.body;
      b.globalStats.totalSalary == SumOf(Counted(rows, b.period, b.startDate, b.endDate), RowWage()) &&
      b.globalStats.totalAmount == SumOf(Counted(rows, b.period, b.startDate, b.endDate), RowAmount()) &&
      b.globalStats.totalEmployees == |GroupKeys(rows, RowKey())|
    ensures r.Ok? ==> var g := r.body.globalStats;
      g.averageSalaryPerPeriod == if |r.body.data| > 0 then g.totalSalary as real / |r.body.data| as real else 0.0
  {
    var p := TextParam(period, "month");
    var range := DateRange(p, startDate, endDate, today);
    if range.None? || fetched.QueryFailed? {
      return Fail(500, ErrorMessage);
    }
    var b := Report(p, range.value, fetched.value);
    r := Ok(b);
  }
}
