/** The billing-period calculator of aap_billing/db/db.py (`calcBillingPeriod`):
    anniversary periods stepped by whole months from the install date, and the
    calendar-month periods used when billing through AWS. */
module AapPeriod {
  import opened Calendar

  /** `settings.BILLING_INTERFACE`: which marketplace the deployment bills through. */
  datatype BillingInterface = Aws | Azure

  /** A billing period, both ends inclusive. */
  datatype Period = Period(start: Timestamp, end: Timestamp)

  /** `install + relativedelta(months=k)`: the k-th monthly boundary after the install
      date, with the install date's time of day. */
  function Boundary(install: Timestamp, k: int): (b: Timestamp)
    ensures MonthIndex(b.date) == MonthIndex(install.date) + k
  {
    DateTime(AddMonths(install.date, k), install.seconds)
  }

  lemma BoundaryZero(install: Timestamp)
    ensures Boundary(install, 0) == install
  {
    AddMonthsZero(install.date);
  }

  /** The value of `offset` when the loop of `calcBillingPeriod` stops, in closed form:
      0 when `now` precedes the install date, otherwise the number of boundaries at or
      before `now`. */
  function Offset(install: Timestamp, now: Timestamp): (n: nat)
    ensures n == 0 <==> Before(now, install)
    ensures Before(now, Boundary(install, n))
    ensures n > 0 ==> !Before(now, Boundary(install, n - 1))
  {
    BoundaryZero(install);
    if Before(now, install) then 0
    else
      NotBeforeMonthIndex(now, install);
      var d := MonthIndex(now.date) - MonthIndex(install.date);
      if Before(now, Boundary(install, d)) then
        MonthIndexOrder(Boundary(install, d - 1), now);
        d
      else
        MonthIndexOrder(now, Boundary(install, d + 1));
        d + 1
  }

  /** No boundary before the `Offset`-th one lies after `now`: `Offset` is the first
      boundary index whose boundary exceeds `now`. */
  lemma OffsetIsFirstBoundaryAfterNow(install: Timestamp, now: Timestamp, k: int)
    requires 0 <= k && Before(now, Boundary(install, k))
    ensures Offset(install, now) <= k
  {
  }

  /** `Offset` is the only index whose boundary exceeds `now` while the one before it
      does not. */
  lemma OffsetUnique(install: Timestamp, now: Timestamp, n: int)
    requires 0 < n && Before(now, Boundary(install, n)) && !Before(now, Boundary(install, n - 1))
    ensures Offset(install, now) == n
  {
    OffsetIsFirstBoundaryAfterNow(install, now, n);
    var m := Offset(install, now);
    if m < n {
      NotBeforeMonthIndex(now, Boundary(install, m - 1));
    }
  }

  /** When `install <= now`, the period start `install + (Offset - 1) months` is the
      latest monthly boundary at or before `now`. */
  lemma PeriodStartIsLatestBoundary(install: Timestamp, now: Timestamp, k: int)
    requires !Before(now, install)
    requires !Before(now, Boundary(install, k))
    ensures !Before(now, AnniversaryPeriod(install, now).start)
    ensures AnniversaryPeriod(install, now).start == Boundary(install, Offset(install, now) - 1)
    ensures k <= Offset(install, now) - 1
  {
    var n := Offset(install, now);
    if k > n {
      MonthIndexOrder(now, Boundary(install, k));
    }
  }

  /** Anniversary mode (db.py:91-100): the period containing `now` is
      `[install + (offset-1) months, install + offset months - 1 day]`, the end at 23:59:59. */
  function AnniversaryPeriod(install: Timestamp, now: Timestamp): (p: Period)
    ensures !Before(now, install) ==> !Before(now, p.start)
    ensures Before(now, DateTime(NextDay(p.end.date), install.seconds))
    ensures MonthIndex(NextDay(p.end.date)) == MonthIndex(p.start.date) + 1
    ensures Before(now, install) ==> NextDay(p.end.date) == install.date
  {
    var n := Offset(install, now);
    BoundaryZero(install);
    Period(Boundary(install, n - 1), DateTime(PrevDay(AddMonths(install.date, n)), EndOfDay))
  }

  /** The loop of db.py:92-99: step `offset` until `install + offset months` exceeds `now`. */
  method CalcAnniversaryPeriod(install: Timestamp, now: Timestamp) returns (p: Period)
    ensures p == AnniversaryPeriod(install, now)
  {
    BoundaryZero(install);
    var checkDate := install;
    var offset := 0;
    while !Before(now, checkDate)
      invariant 0 <= offset <= Offset(install, now)
      invariant checkDate == Boundary(install, offset)
      decreases Offset(install, now) - offset
    {
      offset := offset + 1;
      checkDate := Boundary(install, offset);
    }
    OffsetIsFirstBoundaryAfterNow(install, now, offset);
    var periodEnd := DateTime(PrevDay(AddMonths(install.date, offset)), install.seconds);
    p := Period(Boundary(install, offset - 1), DateTime(periodEnd.date, EndOfDay));
  }

  /** With the install date at midnight, as `getDate` seeds it, the anniversary period
      contains `now` whenever `now` is not before the install date. */
  lemma AnniversaryPeriodContainsNow(install: Timestamp, now: Timestamp)
    requires install.seconds == 0 && !Before(now, install)
    ensures !Before(now, AnniversaryPeriod(install, now).start)
    ensures !Before(AnniversaryPeriod(install, now).end, now)
  {
    var n := Offset(install, now);
    var next := Boundary(install, n);
    assert DateBefore(now.date, next.date);
    PrevDayIsLatestEarlierDate(now.date, next.date);
  }

  /** The day after a period's end is the next period's start date: consecutive
      anniversary periods neither overlap nor leave a day out. */
  lemma AnniversaryPeriodsAreContiguous(install: Timestamp, now: Timestamp)
    ensures NextDay(AnniversaryPeriod(install, now).end.date) == Boundary(install, Offset(install, now)).date
  {
  }

  /** With an install time after midnight, a `now` earlier in the day than the install
      time on a boundary date falls after the end of the period computed for it. */
  lemma AnniversaryGapAfterMidnightInstall()
    ensures var install := DateTime(Date(2022, 1, 1), 10 * 3600);
            var now := DateTime(Date(2022, 2, 1), 9 * 3600);
            Before(AnniversaryPeriod(install, now).end, now)
  {
    var install := DateTime(Date(2022, 1, 1), 10 * 3600);
    var now := DateTime(Date(2022, 2, 1), 9 * 3600);
    BoundaryZero(install);
    assert Boundary(install, 1).date == Date(2022, 2, 1);
    assert Offset(install, now) == 1;
  }

  /** AWS mode as written at db.py:86-89: `now.replace(day=1)` keeps the time of day of
      `now`, and the end is that plus one month minus one day. */
  function AwsPeriodAsWritten(now: Timestamp): (p: Period)
    ensures p.start.date == Date(now.date.year, now.date.month, 1) && p.start.seconds == now.seconds
    ensures p.end.date == Date(now.date.year, now.date.month, DaysInMonth(now.date.year, now.date.month))
    ensures p.end.seconds == now.seconds
    ensures !Before(now, p.start) && !Before(p.end, now)
  {
    var start := DateTime(FirstOfMonth(now.date), now.seconds);
    var next := AddMonths(start.date, 1);
    assert next == if now.date.month < 12 then Date(now.date.year, now.date.month + 1, 1) else Date(now.date.year + 1, 1, 1);
    Period(start, DateTime(PrevDay(AddMonths(start.date, 1)), now.seconds))
  }

  /** The as-written AWS start depends on the time of day: two runs on the same day at
      different times compute different period starts. */
  lemma AwsStartDependsOnTimeOfDay(a: Timestamp, b: Timestamp)
    requires a.date == b.date && a.seconds != b.seconds
    ensures AwsPeriodAsWritten(a).start != AwsPeriodAsWritten(b).start
  {
  }

  /** AWS mode with the start at midnight of the first of the month and the end at
      23:59:59 of its last day. */
  function AwsPeriod(now: Timestamp): Period {
    var first := FirstOfMonth(now.date);
    Period(DateTime(first, 0), DateTime(PrevDay(AddMonths(first, 1)), EndOfDay))
  }

  /** The AWS period is the calendar month of `now` and contains `now`. */
  lemma AwsPeriodIsCalendarMonth(now: Timestamp)
    ensures AwsPeriod(now).start.date == Date(now.date.year, now.date.month, 1)
    ensures AwsPeriod(now).end.date == Date(now.date.year, now.date.month, DaysInMonth(now.date.year, now.date.month))
    ensures !Before(now, AwsPeriod(now).start) && !Before(AwsPeriod(now).end, now)
  {
    var first := FirstOfMonth(now.date);
    var next := AddMonths(first, 1);
    if now.date.month < 12 {
      assert next == Date(now.date.year, now.date.month + 1, 1);
    } else {
      assert next == Date(now.date.year + 1, 1, 1);
    }
  }

  /** Every run in the same calendar month computes the same AWS period. */
  lemma AwsPeriodStableWithinMonth(a: Timestamp, b: Timestamp)
    requires a.date.year == b.date.year && a.date.month == b.date.month
    ensures AwsPeriod(a) == AwsPeriod(b)
  {
  }

  /** The period `calcBillingPeriod` computes for the configured interface. */
  function CalcBillingPeriod(mode: BillingInterface, install: Timestamp, now: Timestamp): (p: Period)
    ensures mode == Aws ==> (p.start.date == Date(now.date.year, now.date.month, 1) &&
      p.end.date == Date(now.date.year, now.date.month, DaysInMonth(now.date.year, now.date.month)))
    ensures mode == Aws || (install.seconds == 0 && !Before(now, install)) ==>
      (!Before(now, p.start) && !Before(p.end, now))
    ensures mode == Azure ==> Before(now, DateTime(NextDay(p.end.date), install.seconds))
  {
    AwsPeriodIsCalendarMonth(now);
    var p := match mode
      case Aws => AwsPeriod(now)
      case Azure => AnniversaryPeriod(install, now);
    if install.seconds == 0 && !Before(now, install) then
      AnniversaryPeriodContainsNow(install, now);
      p
    else p
  }

  /** The anniversary period for `install` and `now` read off the two boundaries that
      bracket `now`. */
  lemma AnniversaryPeriodBetween(install: Timestamp, now: Timestamp, n: int)
    requires 0 < n && Before(now, Boundary(install, n)) && !Before(now, Boundary(install, n - 1))
    ensures AnniversaryPeriod(install, now).start == Boundary(install, n - 1)
    ensures AnniversaryPeriod(install, now).end == DateTime(PrevDay(Boundary(install, n).date), EndOfDay)
  {
    OffsetUnique(install, now, n);
  }

  /** aap_billing/tests/test_billing.py:203-225, install 2021-12-15, today 2022-01-15. */
  lemma AnniversaryExampleMidMonth()
    ensures var p := AnniversaryPeriod(DateTime(Date(2021, 12, 15), 0), DateTime(Date(2022, 1, 15), 0));
            p.start.date == Date(2022, 1, 15) && p.end.date == Date(2022, 2, 14)
  {
    var install := DateTime(Date(2021, 12, 15), 0);
    assert Boundary(install, 1).date == Date(2022, 1, 15);
    assert Boundary(install, 2).date == Date(2022, 2, 15);
    AnniversaryPeriodBetween(install, DateTime(Date(2022, 1, 15), 0), 2);
  }

  /** aap_billing/tests/test_billing.py:203-225, install 2021-12-01, today 2022-01-15. */
  lemma AnniversaryExampleFirstOfMonth()
    ensures var p := AnniversaryPeriod(DateTime(Date(2021, 12, 1), 0), DateTime(Date(2022, 1, 15), 0));
            p.start.date == Date(2022, 1, 1) && p.end.date == Date(2022, 1, 31)
  {
    var install := DateTime(Date(2021, 12, 1), 0);
    assert Boundary(install, 1).date == Date(2022, 1, 1);
    assert Boundary(install, 2).date == Date(2022, 2, 1);
    AnniversaryPeriodBetween(install, DateTime(Date(2022, 1, 15), 0), 2);
  }

  /** aap_billing/tests/test_billing.py:203-225, install 2021-12-31, today 2022-01-15:
      the period began in December and ends on 2022-01-30. */
  lemma AnniversaryExampleEndOfMonth()
    ensures var p := AnniversaryPeriod(DateTime(Date(2021, 12, 31), 0), DateTime(Date(2022, 1, 15), 0));
            p.start.date == Date(2021, 12, 31) && p.end.date == Date(2022, 1, 30)
  {
    var install := DateTime(Date(2021, 12, 31), 0);
    BoundaryZero(install);
    assert Boundary(install, 1).date == Date(2022, 1, 31);
    AnniversaryPeriodBetween(install, DateTime(Date(2022, 1, 15), 0), 1);
  }

  /** aap_billing/tests/testBilling.py:179-199, install 2021-12-01, today 2022-02-15. */
  lemma AnniversaryExampleFebruary()
    ensures var p := AnniversaryPeriod(DateTime(Date(2021, 12, 1), 0), DateTime(Date(2022, 2, 15), 0));
            p.start.date == Date(2022, 2, 1) && p.end.date == Date(2022, 2, 28)
  {
    var install := DateTime(Date(2021, 12, 1), 0);
    assert Boundary(install, 2).date == Date(2022, 2, 1);
    assert Boundary(install, 3).date == Date(2022, 3, 1);
    AnniversaryPeriodBetween(install, DateTime(Date(2022, 2, 15), 0), 3);
  }

  /** aap_billing/tests/testBilling.py:179-199, install 2021-12-31, today 2022-02-15:
      the January boundary is the 31st, the February one clamps to the 28th. */
  lemma AnniversaryExampleShortMonth()
    ensures var p := AnniversaryPeriod(DateTime(Date(2021, 12, 31), 0), DateTime(Date(2022, 2, 15), 0));
            p.start.date == Date(2022, 1, 31) && p.end.date == Date(2022, 2, 27)
  {
    var install := DateTime(Date(2021, 12, 31), 0);
    assert Boundary(install, 1).date == Date(2022, 1, 31);
    assert Boundary(install, 2).date == Date(2022, 2, 28);
    AnniversaryPeriodBetween(install, DateTime(Date(2022, 2, 15), 0), 2);
  }

  /** aap_billing/tests/test_billing.py:227-302: AWS periods ignore the install date. */
  lemma AwsPeriodExamples()
    ensures var p := AwsPeriod(DateTime(Date(2022, 1, 15), 0));
            p.start.date == Date(2022, 1, 1) && p.end.date == Date(2022, 1, 31)
    ensures var p := AwsPeriod(DateTime(Date(2022, 2, 15), 0));
            p.start.date == Date(2022, 2, 1) && p.end.date == Date(2022, 2, 28)
  {
    AwsPeriodIsCalendarMonth(DateTime(Date(2022, 1, 15), 0));
    AwsPeriodIsCalendarMonth(DateTime(Date(2022, 2, 15), 0));
  }
}
