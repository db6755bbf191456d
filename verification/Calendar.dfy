/** The proleptic Gregorian calendar, and the day number that orders and measures it. */
module Calendar {

  datatype Date = Date(year: int, month: int, day: int)

  predicate IsLeap(year: int) {
    year % 4 == 0 && (year % 100 != 0 || year % 400 == 0)
  }

  function DaysInMonth(year: int, month: int): (n: int)
    ensures 28 <= n <= 31
  {
    if month == 2 then (if IsLeap(year) then 29 else 28)
    else if month in {4, 6, 9, 11} then 30
    else 31
  }

  function DaysInYear(year: int): int {
    if IsLeap(year) then 366 else 365
  }

  predicate IsDate(d: Date) {
    1 <= d.year && 1 <= d.month <= 12 && 1 <= d.day <= DaysInMonth(d.year, d.month)
  }

  function DaysBeforeYear(year: int): int
    decreases year
  {
    if year <= 1 then 0 else DaysBeforeYear(year - 1) + DaysInYear(year - 1)
  }

  function DaysBeforeMonth(year: int, month: int): int
    requires 1 <= month
    decreases month
  {
    if month == 1 then 0 else DaysBeforeMonth(year, month - 1) + DaysInMonth(year, month - 1)
  }

  /** Day 1 is 1 January of year 1. */
  function Ordinal(d: Date): int
    requires IsDate(d)
  {
    DaysBeforeYear(d.year) + DaysBeforeMonth(d.year, d.month) + d.day
  }

  predicate Before(a: Date, b: Date) {
    a.year < b.year || (a.year == b.year && (a.month < b.month || (a.month == b.month && a.day < b.day)))
  }

  function NextDay(d: Date): (n: Date)
    requires IsDate(d)
    ensures IsDate(n)
  {
    if d.day < DaysInMonth(d.year, d.month) then d.(day := d.day + 1)
    else if d.month < 12 then Date(d.year, d.month + 1, 1)
    else Date(d.year + 1, 1, 1)
  }

  function FirstOfMonth(d: Date): (f: Date)
    requires IsDate(d)
    ensures IsDate(f)
  {
    d.(day := 1)
  }

  function LastOfMonth(d: Date): (l: Date)
    requires IsDate(d)
    ensures IsDate(l)
  {
    d.(day := DaysInMonth(d.year, d.month))
  }

  /** The date with a given day number. */
  function FromOrdinal(n: int): (d: Date)
    requires 1 <= n
    ensures IsDate(d)
    decreases n
  {
    if n == 1 then Date(1, 1, 1) else NextDay(FromOrdinal(n - 1))
  }

  /** Adding a number of days, possibly negative. */
  function Plus(d: Date, days: int): (r: Date)
    requires IsDate(d) && 1 <= Ordinal(d) + days
    ensures IsDate(r)
  {
    FromOrdinal(Ordinal(d) + days)
  }

  /** Months in order, January of year 0 being 0. */
  function MonthNumber(d: Date): int {
    12 * d.year + d.month - 1
  }

  /** The count of days in closed form: one leap day every fourth year, but not every hundredth unless a four-hundredth. */
  lemma {:induction false} DaysBeforeYearClosed(year: int)
    requires 1 <= year
    ensures DaysBeforeYear(year) == 365 * (year - 1) + (year - 1) / 4 - (year - 1) / 100 + (year - 1) / 400
    decreases year
  {
    if year > 1 {
      var y := year - 1;
      DaysBeforeYearClosed(y);
      MultiplesUpTo(y, 4);
      MultiplesUpTo(y, 100);
      MultiplesUpTo(y, 400);
      MultipleOfMultiple(y);
      YearStep(y % 4 == 0, y % 100 == 0, y % 400 == 0, DaysInYear(y));
    }
  }

  lemma YearStep(fourth: bool, hundredth: bool, fourHundredth: bool, days: int)
    requires (fourHundredth ==> hundredth) && (hundredth ==> fourth)
    requires days == if fourth && (!hundredth || fourHundredth) then 366 else 365
    ensures days == 365 + (if fourth then 1 else 0) - (if hundredth then 1 else 0) + (if fourHundredth then 1 else 0)
  {
  }

  lemma MultiplesUpTo(n: int, k: int)
    requires k in {4, 100, 400}
    ensures n / k == (n - 1) / k + (if n % k == 0 then 1 else 0)
  {
  }

  lemma MultipleOfMultiple(n: int)
    ensures n % 400 == 0 ==> n % 100 == 0
    ensures n % 100 == 0 ==> n % 4 == 0
  {
    TimesHundred(4 * (n / 400));
    TimesFour(25 * (n / 100));
    assert n % 400 == 0 ==> n == 400 * (n / 400);
    assert n % 100 == 0 ==> n == 100 * (n / 100);
  }

  lemma TimesHundred(x: int)
    ensures 100 * x % 100 == 0
  {
  }

  lemma TimesFour(x: int)
    ensures 4 * x % 4 == 0
  {
  }

  lemma MonthsAdd(year: int)
    ensures DaysBeforeMonth(year, 13) == DaysInYear(year)
  {
    assert DaysBeforeMonth(year, 4) == 31 + DaysInMonth(year, 2) + 31;
    assert DaysBeforeMonth(year, 7) == DaysBeforeMonth(year, 4) + 30 + 31 + 30;
    assert DaysBeforeMonth(year, 10) == DaysBeforeMonth(year, 7) + 31 + 31 + 30;
    assert DaysBeforeMonth(year, 13) == DaysBeforeMonth(year, 10) + 31 + 30 + 31;
  }

  lemma {:induction false} LaterMonth(year: int, a: int, b: int)
    requires 1 <= a < b
    ensures DaysBeforeMonth(year, a) + DaysInMonth(year, a) <= DaysBeforeMonth(year, b)
    decreases b
  {
    if a + 1 < b {
      LaterMonth(year, a, b - 1);
    }
  }

  lemma {:induction false} LaterYear(a: int, b: int)
    requires 1 <= a < b
    ensures DaysBeforeYear(a) + DaysInYear(a) <= DaysBeforeYear(b)
    decreases b - a
  {
    if a + 1 < b {
      LaterYear(a, b - 1);
    }
  }

  lemma WithinYear(d: Date)
    requires IsDate(d)
    ensures 1 <= DaysBeforeMonth(d.year, d.month) + d.day <= DaysInYear(d.year)
  {
    MonthsAdd(d.year);
    LaterMonth(d.year, d.month, 13);
    if d.month > 1 {
      LaterMonth(d.year, 1, d.month);
    }
  }

  lemma EarlierIsSmaller(a: Date, b: Date)
    requires IsDate(a) && IsDate(b) && Before(a, b)
    ensures Ordinal(a) < Ordinal(b)
  {
    if a.year < b.year {
      WithinYear(a);
      WithinYear(b);
      LaterYear(a.year, b.year);
    } else if a.month < b.month {
      LaterMonth(a.year, a.month, b.month);
    }
  }

  /** Day numbers order dates exactly as year, month and day do. */
  lemma OrdinalOrders(a: Date, b: Date)
    requires IsDate(a) && IsDate(b)
    ensures Ordinal(a) < Ordinal(b) <==> Before(a, b)
    ensures Ordinal(a) == Ordinal(b) <==> a == b
  {
    if Before(a, b) {
      EarlierIsSmaller(a, b);
    } else if Before(b, a) {
      EarlierIsSmaller(b, a);
    }
  }

  lemma NextDayFollows(d: Date)
    requires IsDate(d)
    ensures Ordinal(NextDay(d)) == Ordinal(d) + 1
  {
    if d.month == 12 {
      MonthsAdd(d.year);
    }
  }

  lemma {:induction false} OrdinalOfFromOrdinal(n: int)
    requires 1 <= n
    ensures Ordinal(FromOrdinal(n)) == n
    decreases n
  {
    if n > 1 {
      OrdinalOfFromOrdinal(n - 1);
      NextDayFollows(FromOrdinal(n - 1));
    }
  }

  lemma OrdinalIsPositive(d: Date)
    requires IsDate(d)
    ensures 1 <= Ordinal(d)
  {
    WithinYear(d);
    if d.year > 1 {
      LaterYear(1, d.year);
    }
  }

  /** Dates and day numbers are the same thing. */
  lemma FromOrdinalOfOrdinal(d: Date)
    requires IsDate(d)
    ensures 1 <= Ordinal(d) && FromOrdinal(Ordinal(d)) == d
  {
    OrdinalIsPositive(d);
    OrdinalOfFromOrdinal(Ordinal(d));
    OrdinalOrders(FromOrdinal(Ordinal(d)), d);
  }

  /** Adding days moves the day number by that many. */
  lemma PlusMoves(d: Date, days: int)
    requires IsDate(d) && 1 <= Ordinal(d) + days
    ensures Ordinal(Plus(d, days)) == Ordinal(d) + days
  {
    OrdinalOfFromOrdinal(Ordinal(d) + days);
  }

  /** A year after a first of the month is at least 365 days later. */
  lemma TwelveMonthsOn(year: int, month: int)
    requires 1 <= year && 1 <= month <= 12
    ensures Ordinal(Date(year + 1, month, 1)) >= Ordinal(Date(year, month, 1)) + 365
  {
    MonthsShift(year, month);
  }

  lemma {:induction false} MonthsShift(year: int, month: int)
    requires 1 <= month <= 12
    ensures DaysBeforeMonth(year + 1, month) - DaysBeforeMonth(year, month)
         == if month <= 2 then 0 else DaysInMonth(year + 1, 2) - DaysInMonth(year, 2)
  {
    if month > 1 {
      MonthsShift(year, month - 1);
    }
  }
}
