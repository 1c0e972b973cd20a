/** The revenue summary cards: the revenues of the current week, month,
    quarter and year, each the sum of the day revenues dated from the
    period's first day up to today. */
module RevenueStats {
  import opened Seqs
  import opened Records
  import opened Calendar

  /** `isWithinInterval(date, { start, end: now })`, both ends included. */
  function Within(start: int, today: int): Revenue -> bool
  {
    (r: Revenue) => start <= r.date <= today
  }

  /** `r => r.montant_jour` */
  function DayAmount(): Revenue -> int
  {
    (r: Revenue) => r.montantJour
  }

  /** `calculateTotalForPeriod(start)` */
  function TotalForPeriod(revenues: seq<Revenue>, start: int, today: int): int
  {
    SumOf(Filter(revenues, Within(start, today)), DayAmount())
  }

  /** One more revenue adds its amount when it is dated within the period,
      and nothing otherwise. */
  lemma TotalOfOneMore(revenues: seq<Revenue>, r: Revenue, start: int, today: int)
    ensures TotalForPeriod(revenues + [r], start, today)
         == TotalForPeriod(revenues, start, today) + (if start <= r.date <= today then r.montantJour else 0)
  {
    assert (revenues + [r])[..|revenues|] == revenues;
    var f := Filter(revenues, Within(start, today));
    if start <= r.date <= today {
      assert Filter(revenues + [r], Within(start, today)) == f + [r];
      SumOfSnoc(f, r, DayAmount());
    } else {
      assert Filter(revenues + [r], Within(start, today)) == f;
    }
  }

  /** An earlier start counts every revenue a later one counts, and with
      non-negative revenues its total is at least as large. */
  lemma EarlierStartCountsMore(revenues: seq<Revenue>, s1: int, s2: int, today: int)
    requires s1 <= s2
    ensures Filter(Filter(revenues, Within(s1, today)), Within(s2, today)) == Filter(revenues, Within(s2, today))
    ensures (forall i :: 0 <= i < |revenues| ==> revenues[i].montantJour >= 0)
        ==> TotalForPeriod(revenues, s1, today) >= TotalForPeriod(revenues, s2, today)
  {
    var f1 := Filter(revenues, Within(s1, today));
    FilterNarrower(revenues, Within(s1, today), Within(s2, today));
    if forall i :: 0 <= i < |revenues| ==> revenues[i].montantJour >= 0 {
      SumOfSplit(f1, Within(s2, today), DayAmount());
      var rest := Filter(f1, Negate(Within(s2, today)));
      forall x | x in rest
        ensures DayAmount()(x) >= 0
      {
        assert x in f1;
      }
      SumOfNonNegative(rest, DayAmount());
    }
  }

  datatype PeriodTotals = PeriodTotals(weekly: int, monthly: int, quarterly: int, yearly: int)

  /** `stats`: the four cards, from this week's Monday, the first of the
      month, of the quarter and of the year. */
  function Stats(revenues: seq<Revenue>, today: int): PeriodTotals
  {
    PeriodTotals(
      TotalForPeriod(revenues, WeekStart(today), today),
      TotalForPeriod(revenues, MonthStart(today), today),
      TotalForPeriod(revenues, QuarterStart(today), today),
      TotalForPeriod(revenues, YearStart(today), today))
  }

  /** With non-negative revenues the year's card is at least the
      quarter's, which is at least the month's. */
  lemma StatsNest(revenues: seq<Revenue>, today: int)
    requires forall i :: 0 <= i < |revenues| ==> revenues[i].montantJour >= 0
    ensures Stats(revenues, today).yearly >= Stats(revenues, today).quarterly >= Stats(revenues, today).monthly
  {
    PeriodStartsOrdered(today);
    EarlierStartCountsMore(revenues, YearStart(today), QuarterStart(today), today);
    EarlierStartCountsMore(revenues, QuarterStart(today), MonthStart(today), today);
  }
}
