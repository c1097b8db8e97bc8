/** Proleptic Gregorian calendar arithmetic, as Python's `datetime` and dateutil's
    `relativedelta` perform it for the billing code: month addition that clamps the
    day to the target month's length, and stepping back one day. */
module Calendar {

  datatype Date = Date(year: int, month: int, day: int)

  predicate IsLeapYear(y: int) {
    y % 4 == 0 && (y % 100 != 0 || y % 400 == 0)
  }

  /** `calendar.monthrange(y, m)[1]`: the number of days in month `m` of year `y`. */
  function DaysInMonth(y: int, m: int): (n: int)
    ensures 28 <= n <= 31
    ensures m == 2 ==> (n == 29 <==> IsLeapYear(y))
  {
    if m == 2 then (if IsLeapYear(y) then 29 else 28)
    else if m == 4 || m == 6 || m == 9 || m == 11 then 30
    else 31
  }

  predicate ValidDate(d: Date) {
    1 <= d.month <= 12 && 1 <= d.day <= DaysInMonth(d.year, d.month)
  }

  /** A date that exists on the calendar. */
  type Day = d: Date | ValidDate(d) witness Date(1970, 1, 1)

  const SecondsPerDay: int := 86400
  /** 23:59:59 as seconds since midnight. */
  const EndOfDay: int := 23 * 3600 + 59 * 60 + 59

  /** A timestamp to the second: a calendar date and the seconds since its midnight. */
  datatype DateTime = DateTime(date: Day, seconds: int)

  type Timestamp = t: DateTime | 0 <= t.seconds < SecondsPerDay
    witness DateTime(Date(1970, 1, 1), 0)

  /** `t.replace(hour=0, minute=0, second=0)`. */
  function Midnight(t: Timestamp): (r: Timestamp)
    ensures r.date == t.date && r.seconds == 0
    ensures !Before(t, r)
  {
    DateTime(t.date, 0)
  }

  /** Lexicographic order on dates. */
  predicate DateBefore(a: Date, b: Date) {
    a.year < b.year || (a.year == b.year && (a.month < b.month || (a.month == b.month && a.day < b.day)))
  }

  /** `a < b` on timestamps; `!Before(a, b)` is Python's `a >= b`. */
  predicate Before(a: DateTime, b: DateTime) {
    DateBefore(a.date, b.date) || (a.date == b.date && a.seconds < b.seconds)
  }

  /** Months elapsed since January of year 0. */
  function MonthIndex(d: Date): int {
    d.year * 12 + d.month - 1
  }

  function Min(a: int, b: int): int {
    if a <= b then a else b
  }

  /** `d + relativedelta(months=k)`: move `k` months, keeping the day of month unless
      the target month is shorter, in which case the day becomes its last day. */
  function AddMonths(d: Day, k: int): (r: Day)
    ensures MonthIndex(r) == MonthIndex(d) + k
    ensures r.day == Min(d.day, DaysInMonth(r.year, r.month))
  {
    var i := MonthIndex(d) + k;
    var y, m := i / 12, i % 12 + 1;
    Date(y, m, Min(d.day, DaysInMonth(y, m)))
  }

  /** `d.replace(day=1)`. */
  function FirstOfMonth(d: Day): (r: Day)
    ensures MonthIndex(r) == MonthIndex(d) && r.day == 1
    ensures !DateBefore(d, r)
  {
    Date(d.year, d.month, 1)
  }

  /** `d + relativedelta(days=1)`. */
  function NextDay(d: Day): (r: Day)
    ensures DateBefore(d, r)
    ensures d.day < DaysInMonth(d.year, d.month) ==> MonthIndex(r) == MonthIndex(d) && r.day == d.day + 1
    ensures d.day == DaysInMonth(d.year, d.month) ==> MonthIndex(r) == MonthIndex(d) + 1 && r.day == 1
  {
    if d.day < DaysInMonth(d.year, d.month) then Date(d.year, d.month, d.day + 1)
    else if d.month < 12 then Date(d.year, d.month + 1, 1)
    else Date(d.year + 1, 1, 1)
  }

  /** `d + relativedelta(days=-1)`: the day before `d`. */
  function PrevDay(d: Day): (r: Day)
    ensures NextDay(r) == d
    ensures DateBefore(r, d)
  {
    if d.day > 1 then Date(d.year, d.month, d.day - 1)
    else if d.month > 1 then Date(d.year, d.month - 1, DaysInMonth(d.year, d.month - 1))
    else Date(d.year - 1, 12, 31)
  }

  /** Stepping forward then back one day returns to the same date. */
  lemma PrevDayOfNextDay(d: Day)
    ensures PrevDay(NextDay(d)) == d
  {
    if d.day == DaysInMonth(d.year, d.month) && d.month < 12 {
      assert NextDay(d) == Date(d.year, d.month + 1, 1);
    }
  }

  /** No date lies strictly between the day before `d` and `d`. */
  lemma PrevDayIsLatestEarlierDate(x: Day, d: Day)
    requires DateBefore(x, d)
    ensures !DateBefore(PrevDay(d), x)
  {
  }

  /** Adding no months leaves a date unchanged. */
  lemma AddMonthsZero(d: Day)
    ensures AddMonths(d, 0) == d
  {
    var i := MonthIndex(d);
    assert i / 12 == d.year && i % 12 == d.month - 1;
  }

  /** A timestamp in an earlier month is earlier. */
  lemma MonthIndexOrder(a: DateTime, b: DateTime)
    requires MonthIndex(a.date) < MonthIndex(b.date)
    ensures Before(a, b) && !Before(b, a)
  {
  }

  /** A timestamp not before another is in the same or a later month. */
  lemma NotBeforeMonthIndex(a: DateTime, b: DateTime)
    requires !Before(a, b)
    ensures MonthIndex(b.date) <= MonthIndex(a.date)
  {
  }

  /** Month addition is strictly increasing in the number of months. */
  lemma AddMonthsIncreasing(t: DateTime, j: int, k: int)
    requires j < k
    ensures Before(DateTime(AddMonths(t.date, j), t.seconds), DateTime(AddMonths(t.date, k), t.seconds))
  {
    MonthIndexOrder(DateTime(AddMonths(t.date, j), t.seconds), DateTime(AddMonths(t.date, k), t.seconds));
  }
}
