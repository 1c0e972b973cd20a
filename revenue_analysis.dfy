/** The revenue analysis: the revenue rows and the attendance rows since the
    start of the current period are gathered into one object keyed by the
    formatted date (`periodData`), revenues first, then payments; each key
    holds the day revenues and the realised amounts of its rows.

    A formatted date is named by a number: `dd/MM` by `100 * month + day`
    and `MMM yyyy` by the month index (`Calendar.MonthIndex`); each number
    stands for exactly one formatted string. */
module RevenueAnalysis {
  import opened Wrappers
  import opened Seqs
  import opened Records
  import opened Calendar
  import opened Grouping
  import opened Dictionaries
  import opened EmployeePayments

  /** The two date formats of the switch (lines 17-42). */
  datatype DateFormat = DayMonth | MonthYear

  /** `dd/MM` for a week, a month or any other value; `MMM yyyy` for a
      quarter or a year. */
  function FormatOf(period: string): (f: DateFormat)
    ensures f == MonthYear <==> period == "quarter" || period == "year"
  {
    if period == "quarter" || period == "year" then MonthYear else DayMonth
  }

  /** `format(new Date(date), dateFormat)` */
  function DateKey(f: DateFormat, date: int): int
  {
    var c := CivilFromDays(date);
    match f
    case DayMonth => 100 * c.month + c.day
    case MonthYear => MonthIndex(date)
  }

  /** What a row adds to its key: a revenue row its `montant_jour`, an
      attendance row its `montant_realise`. */
  datatype Contribution = Contribution(date: int, revenue: int, payment: int)

  function FromRevenue(): Revenue -> Contribution
  {
    (r: Revenue) => Contribution(r.date, r.montantJour, 0)
  }

  function FromPointage(): Pointage -> Contribution
  {
    (p: Pointage) => Contribution(p.date, 0, Amount(p))
  }

  datatype PeriodTotals = PeriodTotals(revenue: int, payments: int)

  /** `{ revenue: 0, payments: 0 }` */
  function NewTotals(): int -> PeriodTotals
  {
    (k: int) => PeriodTotals(0, 0)
  }

  /** `revenue += …` or `payments += …` */
  function AddContribution(): (PeriodTotals, Contribution) -> PeriodTotals
  {
    (t: PeriodTotals, c: Contribution) => PeriodTotals(t.revenue + c.revenue, t.payments + c.payment)
  }

  function ContributionKey(f: DateFormat): Contribution -> int
  {
    (c: Contribution) => DateKey(f, c.date)
  }

  function RevenuePart(): Contribution -> int
  {
    (c: Contribution) => c.revenue
  }

  function PaymentPart(): Contribution -> int
  {
    (c: Contribution) => c.payment
  }

  /** A key's totals: the revenue parts and the payment parts of its rows. */
  lemma {:induction false} TotalsFold(s: seq<Contribution>)
    ensures Fold(s, PeriodTotals(0, 0), AddContribution())
         == PeriodTotals(SumOf(s, RevenuePart()), SumOf(s, PaymentPart()))
    decreases |s|
  {
    if s != [] {
      TotalsFold(s[..|s| - 1]);
    }
  }

  /** Both `forEach` loops as one sequence of contributions, revenues first. */
  function Contributions(revenues: seq<Revenue>, pointages: seq<Pointage>): seq<Contribution>
  {
    Map(revenues, FromRevenue()) + Map(pointages, FromPointage())
  }

  /** `x => format(x.date) === k` on each table. */
  function RevenueAt(f: DateFormat, k: int): Revenue -> bool
  {
    (r: Revenue) => DateKey(f, r.date) == k
  }

  function PointageAt(f: DateFormat, k: int): Pointage -> bool
  {
    (p: Pointage) => DateKey(f, p.date) == k
  }

  function DayRevenue(): Revenue -> int
  {
    (r: Revenue) => r.montantJour
  }

  /** One entry of `chartData`. */
  datatype ChartPoint = ChartPoint(period: int, revenue: int, payments: int)

  function ToPoint(k: int, t: PeriodTotals): ChartPoint
  {
    ChartPoint(k, t.revenue, t.payments)
  }

  /** The entry a key gets, read off the two tables. */
  function PointSpec(f: DateFormat, revenues: seq<Revenue>, pointages: seq<Pointage>, k: int): ChartPoint
  {
    ChartPoint(k, SumOf(Filter(revenues, RevenueAt(f, k)), DayRevenue()),
               SumOf(Filter(pointages, PointageAt(f, k)), PointageAmount()))
  }

  function PointageAmount(): Pointage -> int
  {
    (p: Pointage) => Amount(p)
  }

  /** The contributions of a key are those of its revenue rows followed by
      those of its attendance rows. */
  lemma SplitContributions(f: DateFormat, revenues: seq<Revenue>, pointages: seq<Pointage>, k: int)
    ensures Filter(Contributions(revenues, pointages), InGroup(ContributionKey(f), k))
         == Map(Filter(revenues, RevenueAt(f, k)), FromRevenue())
          + Map(Filter(pointages, PointageAt(f, k)), FromPointage())
  {
    var p := InGroup(ContributionKey(f), k);
    FilterAppend(Map(revenues, FromRevenue()), Map(pointages, FromPointage()), p);
    FilterMap(revenues, FromRevenue(), p);
    FilterMap(pointages, FromPointage(), p);
    FilterSame(revenues, Compose(p, FromRevenue()), RevenueAt(f, k));
    FilterSame(pointages, Compose(p, FromPointage()), PointageAt(f, k));
  }

  /** The revenue parts of a key come from the revenue rows of that key. */
  lemma RevenuePartOfKey(f: DateFormat, revenues: seq<Revenue>, pointages: seq<Pointage>, k: int)
    ensures SumOf(Filter(Contributions(revenues, pointages), InGroup(ContributionKey(f), k)), RevenuePart())
         == SumOf(Filter(revenues, RevenueAt(f, k)), DayRevenue())
  {
    var fa := Filter(revenues, RevenueAt(f, k));
    var fb := Filter(pointages, PointageAt(f, k));
    SplitContributions(f, revenues, pointages, k);
    SumOfAppend(Map(fa, FromRevenue()), Map(fb, FromPointage()), RevenuePart());
    SumOfMap(fa, FromRevenue(), RevenuePart());
    SumOfMap(fb, FromPointage(), RevenuePart());
    SumOfZero(fb, Compose(RevenuePart(), FromPointage()));
    SumOfPointwise(fa, Compose(RevenuePart(), FromRevenue()), fa, DayRevenue());
  }

  /** The payment parts of a key come from the attendance rows of that key. */
  lemma PaymentPartOfKey(f: DateFormat, revenues: seq<Revenue>, pointages: seq<Pointage>, k: int)
    ensures SumOf(Filter(Contributions(revenues, pointages), InGroup(ContributionKey(f), k)), PaymentPart())
         == SumOf(Filter(pointages, PointageAt(f, k)), PointageAmount())
  {
    var fa := Filter(revenues, RevenueAt(f, k));
    var fb := Filter(pointages, PointageAt(f, k));
    SplitContributions(f, revenues, pointages, k);
    SumOfAppend(Map(fa, FromRevenue()), Map(fb, FromPointage()), PaymentPart());
    SumOfMap(fa, FromRevenue(), PaymentPart());
    SumOfMap(fb, FromPointage(), PaymentPart());
    SumOfZero(fa, Compose(PaymentPart(), FromRevenue()));
    SumOfPointwise(fb, Compose(PaymentPart(), FromPointage()), fb, PointageAmount());
  }

  /** Two predicates that agree everywhere filter alike. */
  lemma {:induction false} FilterSame<T>(s: seq<T>, p: T -> bool, q: T -> bool)
    requires forall x :: p(x) == q(x)
    ensures Filter(s, p) == Filter(s, q)
    decreases |s|
  {
    if s != [] {
      FilterSame(s[..|s| - 1], p, q);
    }
  }

  /** The keys of `periodData` in insertion order. */
  function Keys(f: DateFormat, revenues: seq<Revenue>, pointages: seq<Pointage>): seq<int>
  {
    GroupKeys(Contributions(revenues, pointages), ContributionKey(f))
  }

  /** The keys are the union of the revenue rows' keys and the attendance
      rows' keys, each once. */
  lemma KeysAreUnion(f: DateFormat, revenues: seq<Revenue>, pointages: seq<Pointage>, k: int)
    ensures Distinct(Keys(f, revenues, pointages))
    ensures k in Keys(f, revenues, pointages) <==>
      ((exists i :: 0 <= i < |revenues| && DateKey(f, revenues[i].date) == k)
       || (exists j :: 0 <= j < |pointages| && DateKey(f, pointages[j].date) == k))
  {
    GroupKeysOfMapped(revenues, pointages, FromRevenue(), FromPointage(), ContributionKey(f), k);
  }

  /** A key seen only among the attendance rows has revenue 0, and one seen
      only among the revenue rows has payments 0. */
  lemma OneSidedKeys(f: DateFormat, revenues: seq<Revenue>, pointages: seq<Pointage>, k: int)
    ensures (forall i :: 0 <= i < |revenues| ==> DateKey(f, revenues[i].date) != k)
        ==> PointSpec(f, revenues, pointages, k).revenue == 0
    ensures (forall j :: 0 <= j < |pointages| ==> DateKey(f, pointages[j].date) != k)
        ==> PointSpec(f, revenues, pointages, k).payments == 0
  {
  }

  /** `x => x.date >= since` on each table. */
  function RevenueSince(since: int): Revenue -> bool
  {
    (r: Revenue) => r.date >= since
  }

  function PointageSince(since: int): Pointage -> bool
  {
    (p: Pointage) => p.date >= since
  }

  const ErrorMessage := "Erreur lors de la récupération des données"

  /** `GET /api/statistics/revenue-analysis` over the `revenus` table (in
      date order) and the `pointages` table, each as its query reads it or
      the query's error; either error is answered with 500. */
  method RevenueAnalysisRoute(period: Option<string>, today: int,
                              revenueTable: Query<seq<Revenue>>, pointageTable: Query<seq<Pointage>>)
    returns (r: ApiResult<seq<ChartPoint>>)
    ensures revenueTable.QueryFailed? || pointageTable.QueryFailed? <==> r == Fail(500, ErrorMessage)
    ensures revenueTable.Answered? && pointageTable.Answered? <==> r.Ok?
    ensures r.Ok? ==> var p := TextParam(period, "week");
      var since := SinceDate(p, today);
      var revenues := Filter(revenueTable.value, RevenueSince(since));
      var pointages := Filter(pointageTable.value, PointageSince(since));
      var ks := Keys(FormatOf(p), revenues, pointages);
      |r.body| == |ks|
      && forall i :: 0 <= i < |ks| ==> r.body[i] == PointSpec(FormatOf(p), revenues, pointages, ks[i])
  {
    if revenueTable.QueryFailed? || pointageTable.QueryFailed? {
      return Fail(500, ErrorMessage);
    }
    var chart := AnalysisChart(TextParam(period, "week"), today, revenueTable.value, pointageTable.value);
    r := Ok(chart);
  }

  /** The route's computation once both queries have answered. */
  method AnalysisChart(p: string, today: int, revenueTable: seq<Revenue>, pointageTable: seq<Pointage>)
    returns (chart: seq<ChartPoint>)
    ensures var since := SinceDate(p, today);
      var revenues := Filter(revenueTable, RevenueSince(since));
      var pointages := Filter(pointageTable, PointageSince(since));
      var ks := Keys(FormatOf(p), revenues, pointages);
      |chart| == |ks|
      && forall i :: 0 <= i < |ks| ==> chart[i] == PointSpec(FormatOf(p), revenues, pointages, ks[i])
  {
    var since := SinceDate(p, today);
    var f := FormatOf(p);
    var revenues := Filter(revenueTable, RevenueSince(since));
    var pointages := Filter(pointageTable, PointageSince(since));
    var a := Map(revenues, FromRevenue());
    var b := Map(pointages, FromPointage());
    var d := AccumulateRows(a, ContributionKey(f), NewTotals(), AddContribution());
    d := AccumulateMore(a, d, b, ContributionKey(f), NewTotals(), AddContribution());
    AccumulateValues(a + b, ContributionKey(f), NewTotals(), AddContribution());
    AccumulateKeys(a + b, ContributionKey(f), NewTotals(), AddContribution());
    var values := Values(d);
    chart := seq(|d.keys|, i requires 0 <= i < |d.keys| && |values| == |d.keys| => ToPoint(d.keys[i], values[i]));
    var ks := Keys(f, revenues, pointages);
    forall i | 0 <= i < |ks|
      ensures chart[i] == PointSpec(f, revenues, pointages, ks[i])
    {
      PointOfKey(f, revenues, pointages, ks[i]);
    }
  }

  /** The entry of a key holds the revenue and the payments of that key's
      rows. */
  lemma PointOfKey(f: DateFormat, revenues: seq<Revenue>, pointages: seq<Pointage>, k: int)
    ensures ToPoint(k, Group(Contributions(revenues, pointages), ContributionKey(f), NewTotals(), AddContribution())(k))
         == PointSpec(f, revenues, pointages, k)
  {
    TotalsFold(Filter(Contributions(revenues, pointages), InGroup(ContributionKey(f), k)));
    RevenuePartOfKey(f, revenues, pointages, k);
    PaymentPartOfKey(f, revenues, pointages, k);
  }
}
