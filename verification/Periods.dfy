/** Dashboard periods: inclusive ranges of dates, their chart buckets and the windows they are compared with. */
module Periods {
  import opened Wrappers
  import opened Calendar

  const MAX_PERIOD_DAYS := 366
  const MAX_DAILY_BUCKET_PERIOD_DAYS := 31
  const MIN_YEAR := 2000
  const MAX_YEAR := 2100
  const MAX_MONTH_BUCKETS := 13

  datatype Period = Period(dateFrom: Date, dateTo: Date)

  predicate HasDates(p: Period) {
    IsDate(p.dateFrom) && IsDate(p.dateTo)
  }

  function Days(p: Period): int
    requires HasDates(p)
  {
    Ordinal(p.dateTo) - Ordinal(p.dateFrom) + 1
  }

  /** The period can be constructed. */
  predicate ValidPeriod(p: Period) {
    && HasDates(p)
    && 1 <= Days(p) <= MAX_PERIOD_DAYS
    && MIN_YEAR <= p.dateFrom.year && p.dateTo.year <= MAX_YEAR
  }

  /** A day number falls in the period. */
  predicate Contains(p: Period, day: int)
    requires HasDates(p)
  {
    Ordinal(p.dateFrom) <= day <= Ordinal(p.dateTo)
  }

  predicate InOneMonth(p: Period) {
    p.dateFrom.year == p.dateTo.year && p.dateFrom.month == p.dateTo.month
  }

  function Min(a: Date, b: Date): Date {
    if Before(b, a) then b else a
  }

  datatype Granularity = Daily | Monthly

  datatype ChartBuckets = ChartBuckets(granularity: Granularity, buckets: seq<Period>)

  /** The buckets follow one another without gap or overlap from day `a` to day `b`. */
  ghost predicate Tiles(buckets: seq<Period>, a: int, b: int)
  {
    if buckets == [] then a == b + 1
    else
      && HasDates(buckets[0]) && Days(buckets[0]) >= 1
      && Ordinal(buckets[0].dateFrom) == a
      && Tiles(buckets[1..], Ordinal(buckets[0].dateTo) + 1, b)
  }

  lemma {:induction false} TilesAppend(buckets: seq<Period>, a: int, m: int, next: Period)
    requires Tiles(buckets, a, m) && HasDates(next) && Days(next) >= 1 && Ordinal(next.dateFrom) == m + 1
    ensures Tiles(buckets + [next], a, Ordinal(next.dateTo))
  {
    if buckets != [] {
      TilesAppend(buckets[1..], Ordinal(buckets[0].dateTo) + 1, m, next);
      assert (buckets + [next])[1..] == buckets[1..] + [next];
    }
  }

  lemma {:induction false} TilesStayInside(buckets: seq<Period>, a: int, b: int)
    requires Tiles(buckets, a, b)
    ensures a <= b + 1
    ensures forall i | 0 <= i < |buckets| :: HasDates(buckets[i]) && a <= Ordinal(buckets[i].dateFrom) <= Ordinal(buckets[i].dateTo) <= b
    decreases |buckets|
  {
    if buckets != [] {
      TilesStayInside(buckets[1..], Ordinal(buckets[0].dateTo) + 1, b);
      forall i | 0 < i < |buckets|
        ensures HasDates(buckets[i]) && a <= Ordinal(buckets[i].dateFrom) <= Ordinal(buckets[i].dateTo) <= b
      {
        assert buckets[i] == buckets[1..][i - 1];
      }
    }
  }

  ghost predicate OnlyBucket(buckets: seq<Period>, day: int, i: int)
    requires forall j | 0 <= j < |buckets| :: HasDates(buckets[j])
  {
    && 0 <= i < |buckets| && Contains(buckets[i], day)
    && forall j | 0 <= j < |buckets| && Contains(buckets[j], day) :: j == i
  }

  /** Every day of a tiled range falls in exactly one bucket, and no other day in any. */
  lemma {:induction false} OneBucketPerDay(buckets: seq<Period>, a: int, b: int, day: int)
    requires Tiles(buckets, a, b)
    ensures forall j | 0 <= j < |buckets| :: HasDates(buckets[j])
    ensures a <= day <= b <==> exists i :: OnlyBucket(buckets, day, i)
    decreases |buckets|
  {
    TilesStayInside(buckets, a, b);
    if buckets != [] && a <= day <= b {
      var rest, from := buckets[1..], Ordinal(buckets[0].dateTo) + 1;
      TilesStayInside(rest, from, b);
      forall j | 0 < j < |buckets| ensures buckets[j] == rest[j - 1] && !(Contains(buckets[0], day) && Contains(buckets[j], day)) {
      }
      if Contains(buckets[0], day) {
        assert OnlyBucket(buckets, day, 0);
      } else {
        OneBucketPerDay(rest, from, b, day);
        var i :| OnlyBucket(rest, day, i);
        assert OnlyBucket(buckets, day, i + 1);
      }
    }
  }

  lemma PlusOneIsNextDay(d: Date)
    requires IsDate(d)
    ensures 1 <= Ordinal(d) && Plus(d, 1) == NextDay(d)
  {
    FromOrdinalOfOrdinal(d);
  }

  lemma SoonerMonthIsSooner(a: Date, b: Date)
    requires IsDate(a) && IsDate(b) && !Before(b, a)
    ensures MonthNumber(a) <= MonthNumber(b)
  {
  }

  lemma NextMonth(d: Date)
    requires IsDate(d)
    ensures MonthNumber(NextDay(LastOfMonth(d))) == MonthNumber(d) + 1
    ensures NextDay(LastOfMonth(d)).day == 1
    ensures Ordinal(d) < Ordinal(NextDay(LastOfMonth(d)))
  {
    OrdinalOrders(d, NextDay(LastOfMonth(d)));
  }

  /** Dates thirteen or more months apart are more than a year apart. */
  lemma ThirteenMonthsApart(a: Date, b: Date)
    requires IsDate(a) && IsDate(b) && MonthNumber(a) + 13 <= MonthNumber(b)
    ensures Ordinal(a) + 366 <= Ordinal(b)
  {
    var next := NextDay(LastOfMonth(a));
    NextMonth(a);
    TwelveMonthsOn(next.year, next.month);
    var anniversary := Date(next.year + 1, next.month, 1);
    NotAfter(anniversary, b);
  }

  lemma NotAfter(first: Date, b: Date)
    requires IsDate(first) && IsDate(b) && first.day == 1 && MonthNumber(first) <= MonthNumber(b)
    ensures Ordinal(first) <= Ordinal(b)
  {
    assert !Before(b, first);
    OrdinalOrders(b, first);
  }

  /** A period of at most 366 days meets at most 13 calendar months. */
  lemma AtMostThirteenMonths(p: Period)
    requires ValidPeriod(p)
    ensures 0 <= MonthNumber(p.dateTo) - MonthNumber(p.dateFrom) < MAX_MONTH_BUCKETS
  {
    OrdinalOrders(p.dateTo, p.dateFrom);
    SoonerMonthIsSooner(p.dateFrom, p.dateTo);
    if MonthNumber(p.dateFrom) + 13 <= MonthNumber(p.dateTo) {
      ThirteenMonthsApart(p.dateFrom, p.dateTo);
    }
  }

  function DailyBuckets(first: Date, n: nat): seq<Period>
    requires IsDate(first) && 1 <= Ordinal(first)
  {
    if n == 0 then [] else DailyBuckets(first, n - 1) + [OneDay(Plus(first, n - 1))]
  }

  function OneDay(day: Date): Period {
    Period(day, day)
  }

  lemma AppendDay(buckets: seq<Period>, a: int, m: int, day: Date, next: int)
    requires Tiles(buckets, a, m) && IsDate(day) && Ordinal(day) == next && next == m + 1
    ensures Tiles(buckets + [OneDay(day)], a, next)
  {
    TilesAppend(buckets, a, m, OneDay(day));
  }

  lemma PlusMovesFrom(first: Date, a: int, days: int, day: Date, to: int)
    requires IsDate(first) && Ordinal(first) == a && to == a + days && 1 <= to && day == Plus(first, days)
    ensures IsDate(day) && Ordinal(day) == to
  {
    PlusMoves(first, days);
  }

  lemma {:induction false} DailyTiles(first: Date, n: nat, a: int)
    requires IsDate(first) && 1 <= Ordinal(first) == a
    ensures |DailyBuckets(first, n)| == n && Tiles(DailyBuckets(first, n), a, a + n - 1)
  {
    if n > 0 {
      var day := Plus(first, n - 1);
      DailyTiles(first, n - 1, a);
      PlusMovesFrom(first, a, n - 1, day, a + n - 1);
      AppendDay(DailyBuckets(first, n - 1), a, a + n - 2, day, a + n - 1);
    }
  }

  /** What lies between the ends of a valid period is a valid period. */
  lemma InsideIsValid(p: Period, q: Period)
    requires ValidPeriod(p) && HasDates(q) && Days(q) >= 1
    requires Contains(p, Ordinal(q.dateFrom)) && Contains(p, Ordinal(q.dateTo))
    ensures ValidPeriod(q)
  {
    OrdinalOrders(q.dateFrom, p.dateFrom);
    OrdinalOrders(p.dateTo, q.dateTo);
  }

  lemma DayIsValid(p: Period, i: int)
    requires ValidPeriod(p) && 1 <= Ordinal(p.dateFrom) && 0 <= i < Days(p)
    ensures ValidPeriod(OneDay(Plus(p.dateFrom, i))) && InOneMonth(OneDay(Plus(p.dateFrom, i)))
  {
    PlusMoves(p.dateFrom, i);
    InsideIsValid(p, OneDay(Plus(p.dateFrom, i)));
  }

  lemma {:induction false} DailyAreValid(p: Period, n: nat)
    requires ValidPeriod(p) && 1 <= Ordinal(p.dateFrom) && n <= Days(p)
    ensures forall b | b in DailyBuckets(p.dateFrom, n) :: ValidPeriod(b) && InOneMonth(b)
  {
    if n > 0 {
      DailyAreValid(p, n - 1);
      DayIsValid(p, n - 1);
    }
  }

  /** The buckets of a period: days of a short one, calendar months of a longer one. */
  ghost predicate IsLayout(p: Period, layout: ChartBuckets)
    requires ValidPeriod(p)
  {
    && Tiles(layout.buckets, Ordinal(p.dateFrom), Ordinal(p.dateTo))
    && (forall b | b in layout.buckets :: ValidPeriod(b) && InOneMonth(b))
    && (layout.granularity.Daily? <==> Days(p) <= MAX_DAILY_BUCKET_PERIOD_DAYS)
    && (layout.granularity.Daily? ==> |layout.buckets| == Days(p))
    && (layout.granularity.Monthly? ==>
          && |layout.buckets| == MonthNumber(p.dateTo) - MonthNumber(p.dateFrom) + 1
          && |layout.buckets| <= MAX_MONTH_BUCKETS)
  }

  lemma MonthAdvances(start: Date, last: Date)
    requires IsDate(start) && IsDate(last) && !Before(last, start)
    ensures var end := Min(LastOfMonth(start), last); IsDate(end) && 1 <= Ordinal(end) + 1
    ensures Ordinal(start) < Ordinal(Plus(Min(LastOfMonth(start), last), 1)) && Ordinal(start) <= Ordinal(last)
  {
    var end := Min(LastOfMonth(start), last);
    MonthEndLies(last, start, end);
    OrdinalOrders(last, start);
    OrdinalOrders(end, start);
    OrdinalIsPositive(end);
    PlusMoves(end, 1);
  }

  /** Calendar months from `start` on, the last one cut off at `last`. */
  function MonthBuckets(start: Date, last: Date): seq<Period>
    requires IsDate(start) && IsDate(last)
    decreases Ordinal(last) - Ordinal(start)
  {
    if Before(last, start) then []
    else
      MonthAdvances(start, last);
      var end := Min(LastOfMonth(start), last);
      [Period(start, end)] + MonthBuckets(Plus(end, 1), last)
  }

  /** A period's one layout: days up to 31 of them, else calendar months clipped to the period. */
  function LayoutOf(p: Period): ChartBuckets
    requires ValidPeriod(p)
  {
    OrdinalIsPositive(p.dateFrom);
    if Days(p) <= MAX_DAILY_BUCKET_PERIOD_DAYS then ChartBuckets(Daily, DailyBuckets(p.dateFrom, Days(p)))
    else ChartBuckets(Monthly, MonthBuckets(p.dateFrom, p.dateTo))
  }

  method GetChartBuckets(p: Period) returns (layout: ChartBuckets)
    requires ValidPeriod(p)
    ensures layout == LayoutOf(p) && IsLayout(p, layout)
  {
    OrdinalIsPositive(p.dateFrom);
    if Days(p) <= MAX_DAILY_BUCKET_PERIOD_DAYS {
      DailyLayout(p);
      return ChartBuckets(Daily, DailyBuckets(p.dateFrom, Days(p)));
    }
    var months: seq<Period> := [];
    var start := p.dateFrom;
    assert [] + MonthBuckets(start, p.dateTo) == MonthBuckets(start, p.dateTo);
    while !Before(p.dateTo, start)
      invariant MonthsSoFar(p, months, start)
      invariant months + MonthBuckets(start, p.dateTo) == MonthBuckets(p.dateFrom, p.dateTo)
      decreases Ordinal(p.dateTo) - Ordinal(start)
    {
      var end := Min(LastOfMonth(start), p.dateTo);
      MonthStep(p, months, start, end);
      NextMonthBucket(months, start, p.dateTo);
      months := months + [Period(start, end)];
      start := Plus(end, 1);
    }
    assert months + [] == months;
    MonthlyLayout(p, months, start);
    return ChartBuckets(Monthly, months);
  }

  lemma NextMonthBucket(months: seq<Period>, start: Date, last: Date)
    requires IsDate(start) && IsDate(last) && !Before(last, start)
    ensures var end := Min(LastOfMonth(start), last);
            && IsDate(end) && 1 <= Ordinal(end) + 1
            && months + MonthBuckets(start, last) == months + [Period(start, end)] + MonthBuckets(Plus(end, 1), last)
  {
    MonthAdvances(start, last);
    var end := Min(LastOfMonth(start), last);
    assert MonthBuckets(start, last) == [Period(start, end)] + MonthBuckets(Plus(end, 1), last);
  }

  lemma DailyLayout(p: Period)
    requires ValidPeriod(p) && 1 <= Ordinal(p.dateFrom) && Days(p) <= MAX_DAILY_BUCKET_PERIOD_DAYS
    ensures IsLayout(p, ChartBuckets(Daily, DailyBuckets(p.dateFrom, Days(p))))
  {
    DailyTiles(p.dateFrom, Days(p), Ordinal(p.dateFrom));
    DailyAreValid(p, Days(p));
  }

  lemma MonthlyLayout(p: Period, months: seq<Period>, start: Date)
    requires ValidPeriod(p) && Days(p) > MAX_DAILY_BUCKET_PERIOD_DAYS
    requires MonthsSoFar(p, months, start) && Before(p.dateTo, start)
    ensures IsLayout(p, ChartBuckets(Monthly, months))
  {
    OrdinalOrders(p.dateTo, start);
    AtMostThirteenMonths(p);
  }

  /** The months before `start` are laid out; `start` is the day after the period once it is done. */
  ghost predicate MonthsSoFar(p: Period, months: seq<Period>, start: Date)
    requires ValidPeriod(p)
  {
    && IsDate(start) && Ordinal(p.dateFrom) <= Ordinal(start) <= Ordinal(p.dateTo) + 1
    && Tiles(months, Ordinal(p.dateFrom), Ordinal(start) - 1)
    && (forall b | b in months :: ValidPeriod(b) && InOneMonth(b))
    && |months| == if Ordinal(start) <= Ordinal(p.dateTo) then MonthNumber(start) - MonthNumber(p.dateFrom)
                   else MonthNumber(p.dateTo) - MonthNumber(p.dateFrom) + 1
  }

  /** One turn of the loop adds the rest of `start`'s month, or of the period. */
  lemma MonthStep(p: Period, months: seq<Period>, start: Date, end: Date)
    requires ValidPeriod(p) && MonthsSoFar(p, months, start) && !Before(p.dateTo, start)
    requires end == Min(LastOfMonth(start), p.dateTo)
    ensures 1 <= Ordinal(end) + 1
    ensures MonthsSoFar(p, months + [Period(start, end)], Plus(end, 1))
    ensures Ordinal(start) < Ordinal(Plus(end, 1)) && Ordinal(start) <= Ordinal(p.dateTo)
  {
    MonthEnd(p, start, end);
    TilesAppend(months, Ordinal(p.dateFrom), Ordinal(start) - 1, Period(start, end));
  }

  /** The rest of a month, or of the period, and where the next month starts. */
  lemma MonthEnd(p: Period, start: Date, end: Date)
    requires ValidPeriod(p) && IsDate(start) && !Before(p.dateTo, start) && end == Min(LastOfMonth(start), p.dateTo)
    requires Ordinal(p.dateFrom) <= Ordinal(start)
    ensures ValidPeriod(Period(start, end)) && InOneMonth(Period(start, end))
    ensures 1 <= Ordinal(end) + 1 && Ordinal(start) <= Ordinal(end) <= Ordinal(p.dateTo)
    ensures Ordinal(Plus(end, 1)) == Ordinal(end) + 1
    ensures Ordinal(end) < Ordinal(p.dateTo) ==> MonthNumber(Plus(end, 1)) == MonthNumber(start) + 1
    ensures Ordinal(end) == Ordinal(p.dateTo) ==> MonthNumber(p.dateTo) == MonthNumber(start)
  {
    MonthEndLies(p.dateTo, start, end);
    OrdinalOrders(p.dateTo, start);
    OrdinalOrders(start, end);
    OrdinalOrders(end, p.dateTo);
    InsideIsValid(p, Period(start, end));
    PlusOneIsNextDay(end);
    PlusMoves(end, 1);
    NextMonth(start);
  }

  lemma MonthEndLies(last: Date, start: Date, end: Date)
    requires IsDate(start) && IsDate(last) && !Before(last, start) && end == Min(LastOfMonth(start), last)
    ensures IsDate(end) && InOneMonth(Period(start, end)) && !Before(end, start) && !Before(last, end)
    ensures Before(end, last) ==> end == LastOfMonth(start)
  {
  }

  /** The buckets partition the period: each of its days is in exactly one, and no other day is in any. */
  lemma LayoutPartitions(p: Period, layout: ChartBuckets, day: int)
    requires ValidPeriod(p) && IsLayout(p, layout)
    ensures forall j | 0 <= j < |layout.buckets| :: HasDates(layout.buckets[j])
    ensures Contains(p, day) <==> exists i :: OnlyBucket(layout.buckets, day, i)
  {
    OneBucketPerDay(layout.buckets, Ordinal(p.dateFrom), Ordinal(p.dateTo), day);
  }

  // --- what a period is compared with ---

  datatype Windows = Windows(current: Period, previous: Period)

  predicate StartsAMonth(p: Period) {
    p.dateFrom.day == 1 && InOneMonth(p)
  }

  lemma LateEnough(d: Date)
    requires IsDate(d) && MIN_YEAR <= d.year
    ensures Ordinal(d) > 2 * MAX_PERIOD_DAYS
  {
    LaterYear(3, d.year);
    WithinYear(d);
  }

  function PreviousMonth(d: Date): (f: Date)
    requires IsDate(d) && MIN_YEAR <= d.year
    ensures IsDate(f)
  {
    LateEnough(FirstOfMonth(d));
    FirstOfMonth(Plus(FirstOfMonth(d), -1))
  }

  function Previous(current: Period): (previous: Period)
    requires ValidPeriod(current)
    ensures HasDates(previous)
  {
    LateEnough(current.dateFrom);
    if StartsAMonth(current) then
      var from := PreviousMonth(current.dateFrom);
      OrdinalIsPositive(from);
      Period(from, Min(Plus(from, Days(current) - 1), LastOfMonth(from)))
    else
      var to := Plus(current.dateFrom, -1);
      PlusMoves(current.dateFrom, -1);
      Period(Plus(to, 1 - Days(current)), to)
  }

  function Clip(p: Period, today: Date): (current: Period)
    requires ValidPeriod(p) && IsDate(today) && !Before(today, p.dateFrom)
    ensures ValidPeriod(current) && current.dateFrom == p.dateFrom
    ensures forall day :: Contains(current, day) <==> Contains(p, day) && day <= Ordinal(today)
  {
    OrdinalOrders(today, p.dateFrom);
    OrdinalOrders(today, p.dateTo);
    Period(p.dateFrom, Min(p.dateTo, today))
  }

  function ComparisonWindows(p: Period, today: Date): Option<Windows>
    requires ValidPeriod(p) && IsDate(today)
  {
    if Before(today, p.dateFrom) then None else
      var current := Clip(p, today);
      var previous := Previous(current);
      if previous.dateFrom.year < MIN_YEAR then None else Some(Windows(current, previous))
  }

  /** The month before: it ends the day before `d`'s month begins. */
  lemma PreviousMonthPrecedes(d: Date)
    requires IsDate(d) && MIN_YEAR <= d.year
    ensures var f := PreviousMonth(d); f.day == 1 && MonthNumber(f) == MonthNumber(d) - 1 && NextDay(LastOfMonth(f)) == FirstOfMonth(d)
  {
    var first := FirstOfMonth(d);
    LateEnough(first);
    var last := Plus(first, -1);
    PlusMoves(first, -1);
    NextDayFollows(last);
    OrdinalOrders(NextDay(last), first);
  }

  /** A month's last day is the day before the next month's first. */
  lemma MonthEndsBefore(from: Date, first: Date)
    requires IsDate(from) && IsDate(first) && NextDay(LastOfMonth(from)) == first
    ensures IsDate(LastOfMonth(from)) && 1 <= Ordinal(from) && Ordinal(LastOfMonth(from)) + 1 == Ordinal(first)
  {
    OrdinalIsPositive(from);
    NextDayFollows(LastOfMonth(from));
  }

  lemma OffsetInDays(from: Date, days: int, offset: Date)
    requires IsDate(from) && 1 <= Ordinal(from) && 1 <= days && offset == Plus(from, days - 1)
    ensures IsDate(offset) && Ordinal(offset) == Ordinal(from) + days - 1 && Ordinal(from) <= Ordinal(offset)
  {
    PlusMovesFrom(from, Ordinal(from), days - 1, offset, Ordinal(from) + days - 1);
  }

  lemma PreviousFrom(current: Period, from: Date)
    requires ValidPeriod(current) && StartsAMonth(current) && from == PreviousMonth(current.dateFrom)
    requires 1 <= Ordinal(from)
    ensures Previous(current) == Period(from, Min(Plus(from, Days(current) - 1), LastOfMonth(from)))
  {
  }

  lemma MonthPairs(current: Period)
    requires ValidPeriod(current) && StartsAMonth(current)
    ensures var q := Previous(current);
            && HasDates(q) && StartsAMonth(q) && MonthNumber(q.dateFrom) == MonthNumber(current.dateFrom) - 1
            && Ordinal(q.dateTo) < Ordinal(current.dateFrom)
            && (Days(q) == Days(current) || (Days(q) < Days(current) && q.dateTo == LastOfMonth(q.dateTo)))
  {
    var from := PreviousMonth(current.dateFrom);
    PreviousMonthPrecedes(current.dateFrom);
    MonthEndsBefore(from, current.dateFrom);
    var offset := Plus(from, Days(current) - 1);
    OffsetInDays(from, Days(current), offset);
    PreviousFrom(current, from);
    ClippedToMonth(from, offset);
    PairDays(Previous(current), current, offset);
  }

  lemma PairDays(q: Period, current: Period, offset: Date)
    requires ValidPeriod(current) && HasDates(q) && IsDate(offset)
    requires Ordinal(offset) == Ordinal(q.dateFrom) + Days(current) - 1 && Ordinal(q.dateTo) <= Ordinal(LastOfMonth(q.dateFrom))
    requires Ordinal(LastOfMonth(q.dateFrom)) + 1 == Ordinal(current.dateFrom)
    requires q.dateTo == offset || (Ordinal(q.dateTo) < Ordinal(offset) && q.dateTo == LastOfMonth(q.dateTo))
    ensures Ordinal(q.dateTo) < Ordinal(current.dateFrom)
    ensures Days(q) == Days(current) || (Days(q) < Days(current) && q.dateTo == LastOfMonth(q.dateTo))
  {
  }

  lemma ClippedToMonth(first: Date, d: Date)
    requires IsDate(first) && IsDate(d) && first.day == 1 && Ordinal(first) <= Ordinal(d)
    ensures var to := Min(d, LastOfMonth(first));
            && IsDate(to) && StartsAMonth(Period(first, to)) && Ordinal(to) <= Ordinal(LastOfMonth(first))
            && (to == d || (Ordinal(to) < Ordinal(d) && to == LastOfMonth(to)))
  {
    OrdinalOrders(d, first);
    OrdinalOrders(LastOfMonth(first), d);
    OrdinalOrders(d, LastOfMonth(first));
  }

  lemma SpanBefore(current: Period)
    requires ValidPeriod(current) && !StartsAMonth(current)
    ensures var q := Previous(current);
            HasDates(q) && Ordinal(q.dateTo) == Ordinal(current.dateFrom) - 1 && Days(q) == Days(current)
  {
    LateEnough(current.dateFrom);
    var to := Plus(current.dateFrom, -1);
    PlusMoves(current.dateFrom, -1);
    PlusMoves(to, 1 - Days(current));
  }

  /** What the comparison compares: a window no longer than the current one, wholly before it. */
  ghost predicate Comparable(w: Windows) {
    && ValidPeriod(w.current) && ValidPeriod(w.previous)
    && Ordinal(w.previous.dateTo) < Ordinal(w.current.dateFrom)
    && if StartsAMonth(w.current) then
         && StartsAMonth(w.previous) && MonthNumber(w.previous.dateFrom) == MonthNumber(w.current.dateFrom) - 1
         && (Days(w.previous) == Days(w.current) ||
             (Days(w.previous) < Days(w.current) && w.previous.dateTo == LastOfMonth(w.previous.dateTo)))
       else
         Ordinal(w.previous.dateTo) + 1 == Ordinal(w.current.dateFrom) && Days(w.previous) == Days(w.current)
  }

  /** Both windows can be constructed, and there is none exactly when the period has not begun or reaches before 2000. */
  lemma WindowsAreComparable(p: Period, today: Date)
    requires ValidPeriod(p) && IsDate(today)
    ensures var w := ComparisonWindows(p, today);
            && (w.Some? ==> w.value.current == Clip(p, today) && Comparable(w.value))
            && (w.None? <==> Before(today, p.dateFrom) || Previous(Clip(p, today)).dateFrom.year < MIN_YEAR)
  {
    if !Before(today, p.dateFrom) {
      var current := Clip(p, today);
      var q := Previous(current);
      if StartsAMonth(current) {
        MonthPairs(current);
      } else {
        SpanBefore(current);
      }
      OrdinalOrders(q.dateTo, current.dateFrom);
      OrdinalOrders(current.dateTo, current.dateFrom);
    }
  }
}
