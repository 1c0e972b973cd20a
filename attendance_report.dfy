/** The attendance report of one employee (`GET /api/employes/attendance`):
    totals and attendance rate over a period, and the same figures per
    calendar week. The employee's rows since the period start arrive already
    fetched. */
module AttendanceReport {
  import opened Wrappers
  import opened Seqs
  import opened Records
  import opened Calendar
  import opened Grouping
  import opened Sorting
  import WeeklyPayroll

  datatype AttendanceStats = AttendanceStats(
    totalDays: int,
    presentDays: int,
    absentDays: int,
    restDays: int,
    attendanceRate: real,
    totalAmount: int,
    totalSalary: int)

  datatype WeekBucket = WeekBucket(
    weekStart: int,
    days: int,
    presentDays: int,
    absentDays: int,
    restDays: int,
    totalAmount: int,
    totalSalary: int)

  datatype Report = Report(
    period: string,
    startDate: int,
    stats: AttendanceStats,
    weeklyStats: seq<WeekBucket>,
    pointages: seq<Pointage>)

  const MissingIdMessage := "ID de l'employé requis"

  /** The first day of the period: this week's Monday, this month's first,
      this year's first; any other period value means the month. */
  function PeriodStart(period: string, today: int): (r: int)
    ensures r <= today
    ensures period == "week" ==> Weekday(r) == 0 && today - r < 7
    ensures period == "year" ==> r == YearStart(today)
    ensures period != "week" && period != "year" ==> r == MonthStart(today)
  {
    PeriodStartsOrdered(today);
    if period == "week" then WeekStart(today)
    else if period == "year" then YearStart(today)
    else MonthStart(today)
  }

  /** `totalDays > 0 ? presentDays / totalDays * 100 : 0` */
  function AttendanceRate(presentDays: int, totalDays: int): (r: real)
    ensures totalDays == 0 ==> r == 0.0
    ensures totalDays > 0 ==> r * (totalDays as real) == (presentDays as real) * 100.0
    ensures 0 <= presentDays <= totalDays ==> 0.0 <= r <= 100.0
  {
    if totalDays > 0 then (presentDays as real) / (totalDays as real) * 100.0 else 0.0
  }

  /** The totals over the period. */
  function OverallStats(e: Employee, rows: seq<Pointage>): (s: AttendanceStats)
    ensures s.presentDays + s.absentDays + s.restDays <= s.totalDays == |rows|
    ensures 0.0 <= s.attendanceRate <= 100.0
  {
    var presentDays := |Filter(rows, DayStatusIs(Present))|;
    WeeklyPayroll.StatusCountsBounded(rows);
    AttendanceStats(
      |rows|,
      presentDays,
      |Filter(rows, DayStatusIs(Absent))|,
      |Filter(rows, DayStatusIs(Rest))|,
      AttendanceRate(presentDays, |rows|),
      SumOf(rows, Amount),
      presentDays * OrZero(e.salaireJour))
  }

  /** The key of a row's week: the Monday of its date. */
  function WeekOf(): Pointage -> int
  {
    (p: Pointage) => WeekStart(p.date)
  }

  /** One row counted into its week's bucket: one more day, at most one
      status counter (the `else if` chain), the realised amount, and the
      daily rate on a present day. */
  function AddRow(b: WeekBucket, p: Pointage, rate: int): WeekBucket
  {
    b.(days := b.days + 1,
       presentDays := if p.statutJour == Present then b.presentDays + 1 else b.presentDays,
       absentDays := if p.statutJour != Present && p.statutJour == Absent then b.absentDays + 1 else b.absentDays,
       restDays := if p.statutJour != Present && p.statutJour != Absent && p.statutJour == Rest
                   then b.restDays + 1 else b.restDays,
       totalAmount := b.totalAmount + Amount(p),
       totalSalary := b.totalSalary + (if p.statutJour == Present then rate else 0))
  }

  /** The bucket of week `k` after counting the rows `s` in order. */
  function Tally(s: seq<Pointage>, k: int, rate: int): WeekBucket
  {
    if s == [] then WeekBucket(k, 0, 0, 0, 0, 0, 0)
    else AddRow(Tally(s[..|s| - 1], k, rate), s[|s| - 1], rate)
  }

  /** The bucket of week `k`: that week's rows, counted in order. */
  function BucketSpec(rows: seq<Pointage>, k: int, rate: int): WeekBucket
  {
    Tally(Filter(rows, InGroup(WeekOf(), k)), k, rate)
  }

  /** One more row changes the bucket of its own week only. */
  lemma BucketSpecSnoc(rows: seq<Pointage>, p: Pointage, k: int, rate: int)
    ensures BucketSpec(rows + [p], k, rate) ==
      if WeekStart(p.date) == k then AddRow(BucketSpec(rows, k, rate), p, rate)
      else BucketSpec(rows, k, rate)
  {
    var f := Filter(rows, InGroup(WeekOf(), k));
    assert (rows + [p])[..|rows|] == rows;
    if WeekStart(p.date) == k {
      assert Filter(rows + [p], InGroup(WeekOf(), k)) == f + [p];
      assert (f + [p])[..|f|] == f;
    } else {
      assert Filter(rows + [p], InGroup(WeekOf(), k)) == f;
    }
  }

  /** A bucket counts one day per row. */
  lemma {:induction false} TallyDays(s: seq<Pointage>, k: int, rate: int)
    ensures Tally(s, k, rate).days == |s|
    decreases |s|
  {
    if s != [] {
      TallyDays(s[..|s| - 1], k, rate);
    }
  }

  /** `weeklyStats`, a JavaScript object: its keys in insertion order and
      the bucket of each. */
  datatype WeekDict = WeekDict(keys: seq<int>, buckets: map<int, WeekBucket>)

  /** `weeklyStats` after the `forEach` over `rows`: a row of a week not seen
      yet creates that week's empty bucket at the end of the key order; then
      the row is counted into its week's bucket. */
  function Buckets(rows: seq<Pointage>, rate: int): WeekDict
  {
    if rows == [] then WeekDict([], map[])
    else
      var d := Buckets(rows[..|rows| - 1], rate);
      var p := rows[|rows| - 1];
      var key := WeekStart(p.date);
      if key in d.buckets then WeekDict(d.keys, d.buckets[key := AddRow(d.buckets[key], p, rate)])
      else WeekDict(d.keys + [key], d.buckets[key := AddRow(WeekBucket(key, 0, 0, 0, 0, 0, 0), p, rate)])
  }

  /** Every key has a bucket and every bucket a key. */
  lemma {:induction false} BucketsDomain(rows: seq<Pointage>, rate: int)
    ensures forall k :: k in Buckets(rows, rate).buckets <==> k in Buckets(rows, rate).keys
    decreases |rows|
  {
    if rows != [] {
      BucketsDomain(rows[..|rows| - 1], rate);
    }
  }

  /** The keys are the weeks in order of first appearance. */
  lemma {:induction false} BucketsKeys(rows: seq<Pointage>, rate: int)
    ensures Buckets(rows, rate).keys == GroupKeys(rows, WeekOf())
    decreases |rows|
  {
    if rows != [] {
      var rows' := rows[..|rows| - 1];
      var p := rows[|rows| - 1];
      BucketsKeys(rows', rate);
      BucketsDomain(rows', rate);
      var d := Buckets(rows', rate);
      assert Buckets(rows, rate).keys
          == if WeekStart(p.date) in d.buckets then d.keys else d.keys + [WeekStart(p.date)];
      assert rows == rows' + [p];
      GroupKeysSnoc(rows', p, WeekOf());
    }
  }

  /** A week has a bucket exactly when some row falls in it, and the bucket
      is `BucketSpec`. */
  lemma {:induction false} BucketsAt(rows: seq<Pointage>, rate: int, k: int)
    ensures k in Buckets(rows, rate).buckets <==> BucketSpec(rows, k, rate).days > 0
    ensures k in Buckets(rows, rate).buckets ==> Buckets(rows, rate).buckets[k] == BucketSpec(rows, k, rate)
    decreases |rows|
  {
    if rows != [] {
      var rows' := rows[..|rows| - 1];
      var p := rows[|rows| - 1];
      BucketsAt(rows', rate, k);
      assert rows == rows' + [p];
      BucketSpecSnoc(rows', p, k, rate);
      TallyDays(Filter(rows', InGroup(WeekOf(), k)), k, rate);
    }
  }

  /** The body of the `forEach` for one row once its bucket exists. */
  method CountRow(b0: WeekBucket, p: Pointage, rate: int) returns (b: WeekBucket)
    ensures b == AddRow(b0, p, rate)
  {
    b := b0.(days := b0.days + 1);
    if p.statutJour == Present {
      b := b.(presentDays := b.presentDays + 1);
    } else if p.statutJour == Absent {
      b := b.(absentDays := b.absentDays + 1);
    } else if p.statutJour == Rest {
      b := b.(restDays := b.restDays + 1);
    }
    b := b.(totalAmount := b.totalAmount + Amount(p));
    b := b.(totalSalary := b.totalSalary + (if p.statutJour == Present then rate else 0));
  }

  /** The `forEach` that fills `weeklyStats`. */
  method BucketByWeek(rows: seq<Pointage>, rate: int) returns (d: WeekDict)
    ensures d == Buckets(rows, rate)
  {
    var keys: seq<int>, buckets: map<int, WeekBucket> := [], map[];
    var i := 0;
    while i < |rows|
      invariant 0 <= i <= |rows|
      invariant WeekDict(keys, buckets) == Buckets(rows[..i], rate)
    {
      var p := rows[i];
      var key := WeekStart(p.date);
      assert rows[..i + 1][..i] == rows[..i];
      if key !in buckets {
        buckets := buckets[key := WeekBucket(key, 0, 0, 0, 0, 0, 0)];
        keys := keys + [key];
      }
      var b := CountRow(buckets[key], p, rate);
      buckets := buckets[key := b];
      i := i + 1;
    }
    assert rows[..i] == rows;
    d := WeekDict(keys, buckets);
  }

  /** 1 for a row of day status `st`, else 0. */
  function StatusOne(st: string): Pointage -> int
  {
    (p: Pointage) => if p.statutJour == st then 1 else 0
  }

  /** A tally holds the sums of its rows; its three status counters never
      exceed its day count. */
  lemma {:induction false} TallySums(s: seq<Pointage>, k: int, rate: int)
    ensures var b := Tally(s, k, rate);
      b.weekStart == k &&
      b.days == SumOf(s, One()) &&
      b.presentDays == SumOf(s, StatusOne(Present)) &&
      b.totalSalary == SumOf(s, WeeklyPayroll.DayWage(rate)) &&
      b.presentDays + b.absentDays + b.restDays <= b.days
    decreases |s|
  {
    if s != [] {
      TallySums(s[..|s| - 1], k, rate);
    }
  }

  /** A status count is the number of ones summed over the rows. */
  lemma {:induction false} StatusCountIsSum(s: seq<Pointage>, st: string)
    ensures |Filter(s, DayStatusIs(st))| == SumOf(s, StatusOne(st))
    decreases |s|
  {
    if s != [] {
      StatusCountIsSum(s[..|s| - 1], st);
    }
  }

  /** Buckets in chronological order. */
  function BucketRank(): WeekBucket -> Rank
  {
    (b: WeekBucket) => Rank(b.weekStart, 0)
  }

  /** Rows in date order. */
  function DateRank(): Pointage -> Rank
  {
    (p: Pointage) => Rank(p.date, 0)
  }

  function Days(): WeekBucket -> int { (b: WeekBucket) => b.days }
  function BucketSalary(): WeekBucket -> int { (b: WeekBucket) => b.totalSalary }
  function BucketPresent(): WeekBucket -> int { (b: WeekBucket) => b.presentDays }

  /** `Object.values(weeklyStats)`: one bucket per week key, in key order. */
  predicate IsBucketList(rows: seq<Pointage>, rate: int, keys: seq<int>, values: seq<WeekBucket>)
  {
    keys == GroupKeys(rows, WeekOf()) && |values| == |keys| &&
    forall i :: 0 <= i < |keys| ==> values[i] == BucketSpec(rows, keys[i], rate)
  }

  /** A per-bucket figure that is the group total of a per-row figure sums,
      over the buckets, to the total of the per-row figure. */
  lemma BucketsAddUp(rows: seq<Pointage>, keys: seq<int>, values: seq<WeekBucket>,
                     f: WeekBucket -> int, g: Pointage -> int)
    requires keys == GroupKeys(rows, WeekOf()) && |values| == |keys|
    requires forall i :: 0 <= i < |keys| ==> f(values[i]) == GroupSum(rows, WeekOf(), g)(keys[i])
    ensures SumOf(values, f) == SumOf(rows, g)
  {
    SumOfPointwise(values, f, keys, GroupSum(rows, WeekOf(), g));
    SumOfGroups(rows, WeekOf(), g);
  }

  /** The weekly buckets add up to the period's day count, present days and
      salary, and each keeps its status counts within its day count. */
  lemma BucketTotals(rows: seq<Pointage>, rate: int, keys: seq<int>, values: seq<WeekBucket>)
    requires IsBucketList(rows, rate, keys, values)
    ensures SumOf(values, Days()) == |rows|
    ensures SumOf(values, BucketPresent()) == |Filter(rows, DayStatusIs(Present))|
    ensures SumOf(values, BucketSalary()) == |Filter(rows, DayStatusIs(Present))| * rate
    ensures forall b :: b in values ==> b.presentDays + b.absentDays + b.restDays <= b.days
  {
    forall i | 0 <= i < |keys|
      ensures values[i].days == GroupSum(rows, WeekOf(), One())(keys[i])
      ensures values[i].presentDays == GroupSum(rows, WeekOf(), StatusOne(Present))(keys[i])
      ensures values[i].totalSalary == GroupSum(rows, WeekOf(), WeeklyPayroll.DayWage(rate))(keys[i])
      ensures values[i].presentDays + values[i].absentDays + values[i].restDays <= values[i].days
    {
      TallySums(Filter(rows, InGroup(WeekOf(), keys[i])), keys[i], rate);
    }
    BucketsAddUp(rows, keys, values, Days(), One());
    CountIsSumOfOnes(rows);
    BucketsAddUp(rows, keys, values, BucketPresent(), StatusOne(Present));
    StatusCountIsSum(rows, Present);
    BucketsAddUp(rows, keys, values, BucketSalary(), WeeklyPayroll.DayWage(rate));
    WeeklyPayroll.SalaryIsSumOfDayWages(rows, rate);
  }

  /** The chronologically sorted buckets keep the totals of `BucketTotals`. */
  lemma SortedBucketTotals(rows: seq<Pointage>, rate: int, keys: seq<int>, values: seq<WeekBucket>)
    requires IsBucketList(rows, rate, keys, values)
    ensures var sorted := SortByRank(values, BucketRank());
      SumOf(sorted, Days()) == |rows| &&
      SumOf(sorted, BucketPresent()) == |Filter(rows, DayStatusIs(Present))| &&
      SumOf(sorted, BucketSalary()) == |Filter(rows, DayStatusIs(Present))| * rate &&
      forall i :: 0 <= i < |sorted| ==> sorted[i].presentDays + sorted[i].absentDays + sorted[i].restDays <= sorted[i].days
  {
    var sorted := SortByRank(values, BucketRank());
    BucketTotals(rows, rate, keys, values);
    SumOfPermutation(sorted, values, Days());
    SumOfPermutation(sorted, values, BucketPresent());
    SumOfPermutation(sorted, values, BucketSalary());
    forall i | 0 <= i < |sorted|
      ensures sorted[i].presentDays + sorted[i].absentDays + sorted[i].restDays <= sorted[i].days
    {
      assert sorted[i] in multiset(values);
    }
  }

  /** `Object.values(weeklyStats)` as a function of the rows: the bucket of
      each week, weeks in order of first appearance. */
  function WeekBuckets(rows: seq<Pointage>, rate: int): (r: seq<WeekBucket>)
    ensures |r| == |GroupKeys(rows, WeekOf())|
    ensures IsBucketList(rows, rate, GroupKeys(rows, WeekOf()), r)
  {
    Map(GroupKeys(rows, WeekOf()), (k: int) => BucketSpec(rows, k, rate))
  }

  /** The `forEach` over the rows, then `Object.values` and the
      chronological sort: the buckets of the weeks, in week order, adding
      up to the period totals. */
  method WeeklyStats(rows: seq<Pointage>, rate: int) returns (sorted: seq<WeekBucket>)
    ensures sorted == SortByRank(WeekBuckets(rows, rate), BucketRank())
    ensures SumOf(sorted, Days()) == |rows|
    ensures SumOf(sorted, BucketPresent()) == |Filter(rows, DayStatusIs(Present))|
    ensures SumOf(sorted, BucketSalary()) == |Filter(rows, DayStatusIs(Present))| * rate
    ensures forall i :: 0 <= i < |sorted| ==>
      sorted[i].presentDays + sorted[i].absentDays + sorted[i].restDays <= sorted[i].days
  {
    var d := BucketByWeek(rows, rate);
    BucketsDomain(rows, rate);
    BucketsKeys(rows, rate);
    var values := seq(|d.keys|, i requires 0 <= i < |d.keys| => d.buckets[d.keys[i]]);
    forall i | 0 <= i < |d.keys|
      ensures values[i] == BucketSpec(rows, d.keys[i], rate)
    {
      BucketsAt(rows, rate, d.keys[i]);
    }
    assert values == WeekBuckets(rows, rate);
    sorted := SortByRank(values, BucketRank());
    SortedBucketTotals(rows, rate, d.keys, values);
  }

  const ErrorMessage := "Erreur lors de la récupération de l'assiduité"

  /** The route. A missing `employeeId` is answered with 400 before any
      query; an error of the rows' query or of the employee lookup
      (`.single()`, which fails when no employee has that id) with 500.
      Otherwise the weekly buckets are those of the weeks of the rows, in
      chronological order; they add up to the period totals and each keeps
      its three status counts within its day count; the rows come back in
      date order. */
  method AttendanceRoute(employeeId: Option<string>, period: Option<string>, today: int,
                         fetched: Query<seq<Pointage>>, e: Query<Employee>) returns (r: ApiResult<Report>)
    ensures Missing(employeeId) <==> r == Fail(400, MissingIdMessage)
    ensures !Missing(employeeId) && (fetched.QueryFailed? || e.QueryFailed?) <==> r == Fail(500, ErrorMessage)
    ensures r.Ok? <==> !Missing(employeeId) && fetched.Answered? && e.Answered?
    ensures r.Ok? ==> r.body.period == TextParam(period, "month")
    ensures r.Ok? ==> r.body.startDate == PeriodStart(TextParam(period, "month"), today)
    ensures r.Ok? ==> r.body.stats == OverallStats(e.value, fetched.value)
    ensures r.Ok? ==>
      r.body.weeklyStats == SortByRank(WeekBuckets(fetched.value, OrZero(e.value.salaireJour)), BucketRank())
    ensures r.Ok? ==>
      SumOf(r.body.weeklyStats, Days()) == r.body.stats.totalDays &&
      SumOf(r.body.weeklyStats, BucketPresent()) == r.body.stats.presentDays &&
      SumOf(r.body.weeklyStats, BucketSalary()) == r.body.stats.totalSalary
    ensures r.Ok? ==> forall i :: 0 <= i < |r.body.weeklyStats| ==>
      var b := r.body.weeklyStats[i];
      b.presentDays + b.absentDays + b.restDays <= b.days
    ensures r.Ok? ==> SortedByRank(r.body.weeklyStats, BucketRank())
    ensures r.Ok? ==> |r.body.weeklyStats| == |GroupKeys(fetched.value, WeekOf())|
    ensures r.Ok? ==>
      SortedByRank(r.body.pointages, DateRank()) && multiset(r.body.pointages) == multiset(fetched.value)
  {
    if Missing(employeeId) {
      return Fail(400, MissingIdMessage);
    }
    if fetched.QueryFailed? || e.QueryFailed? {
      return Fail(500, ErrorMessage);
    }
    var rows := fetched.value;
    var p := TextParam(period, "month");
    var stats := OverallStats(e.value, rows);
    var sorted := WeeklyStats(rows, OrZero(e.value.salaireJour));
    r := Ok(Report(p, PeriodStart(p, today), stats, sorted, SortByRank(rows, DateRank())));
  }
}
