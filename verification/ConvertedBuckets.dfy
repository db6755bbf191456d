/** Spending over time in one currency: each currency's bucket total converts once, and they add up per bucket. */
module ConvertedBuckets {
  import opened Wrappers
  import opened Amounts
  import opened Expenses
  import opened Aggregates
  import opened Calendar
  import opened Periods
  import opened Dashboard
  import opened ConvertedDashboard

  function DaysOf(daily: seq<DailyTotal>, c: Currency): seq<DailyTotal> {
    if daily == [] then []
    else (if daily[0].currency == c then [daily[0]] else []) + DaysOf(daily[1..], c)
  }

  /** A currency's column in one bucket. */
  function InBucket(daily: seq<DailyTotal>, c: Currency, p: Period, column: Column): nat
    requires HasDates(p)
  {
    PeriodSum(DaysOf(daily, c), p, column)
  }

  lemma {:induction false} DaysOfAppend(daily: seq<DailyTotal>, d: DailyTotal, c: Currency)
    ensures DaysOf(daily + [d], c) == DaysOf(daily, c) + if d.currency == c then [d] else []
  {
    if daily == [] {
      assert daily + [d] == [d] && [d][1..] == [];
    } else {
      DaysOfAppend(daily[1..], d, c);
      assert (daily + [d])[1..] == daily[1..] + [d];
    }
  }

  ghost predicate Grouped(daily: seq<DailyTotal>, order: seq<Currency>, byCurrency: map<Currency, seq<DailyTotal>>) {
    && ConvertedDashboard.NoRepeats(order)
    && (forall c :: c in order <==> c in byCurrency)
    && (forall c | c in byCurrency :: byCurrency[c] == DaysOf(daily, c))
    && (forall c | c !in byCurrency :: DaysOf(daily, c) == [])
  }

  /** The days of each currency, currencies in the order met. */
  method ByCurrency(daily: seq<DailyTotal>) returns (order: seq<Currency>, byCurrency: map<Currency, seq<DailyTotal>>)
    ensures Grouped(daily, order, byCurrency)
  {
    order, byCurrency := [], map[];
    for i := 0 to |daily|
      invariant Grouped(daily[..i], order, byCurrency)
    {
      var d := daily[i];
      assert daily[..i + 1] == daily[..i] + [d];
      forall c: Currency {
        DaysOfAppend(daily[..i], d, c);
      }
      var days := if d.currency in byCurrency then byCurrency[d.currency] else [];
      if d.currency !in byCurrency {
        order := order + [d.currency];
      }
      byCurrency := byCurrency[d.currency := days + [d]];
    }
    assert daily[..|daily|] == daily;
  }

  ghost predicate HaveDates(periods: seq<Period>) {
    forall i | 0 <= i < |periods| :: HasDates(periods[i])
  }

  /** A group is one currency's non-empty bucket. */
  ghost predicate IsBucketGroup(daily: seq<DailyTotal>, periods: seq<Period>, g: Group<int>)
    requires HaveDates(periods)
  {
    && 0 <= g.key < |periods| && g.count > 0
    && g.total == InBucket(daily, g.currency, periods[g.key], MinorUnits) && g.count == InBucket(daily, g.currency, periods[g.key], Column.Expenses)
  }

  /** Currency number `i`, bucket number `k`, come before currency `m`, bucket `n` in the double loop. */
  predicate Earlier(i: int, k: int, m: int, n: int) {
    i < m || (i == m && k < n)
  }

  ghost predicate Listed(groups: seq<Group<int>>, c: Currency, k: int) {
    exists x :: 0 <= x < |groups| && groups[x].currency == c && groups[x].key == k
  }

  /** The groups converted so far: exactly the non-empty buckets of the currencies and buckets already visited. */
  ghost predicate Visited(daily: seq<DailyTotal>, periods: seq<Period>, order: seq<Currency>, m: int, n: int, groups: seq<Group<int>>)
    requires HaveDates(periods)
  {
    && Distinct(groups)
    && (forall g | g in groups :: IsBucketGroup(daily, periods, g) && exists i :: 0 <= i < |order| && order[i] == g.currency && Earlier(i, g.key, m, n))
    && (forall i, k | 0 <= i < |order| && 0 <= k < |periods| && Earlier(i, k, m, n) && InBucket(daily, order[i], periods[k], Column.Expenses) > 0 ::
          Listed(groups, order[i], k))
  }

  ghost predicate IsLine(s: Snapshot, groups: seq<Group<int>>, k: int, l: Line<int>)
    requires AllFit(s, groups)
  {
    l.key == k && l.total == KeySum(s, groups, k, MinorUnits) && l.count == KeySum(s, groups, k, Column.Expenses)
  }

  /** The lines hold the converted groups, bucket by bucket. */
  ghost predicate LinesHold(s: Snapshot, groups: seq<Group<int>>, lines: seq<Line<int>>) {
    && AllFit(s, groups)
    && (forall k | 0 <= k < |lines| :: IsLine(s, groups, k, lines[k]))
    && (forall column :: LinesSum(lines, column) == PieceSum(s, groups, column))
  }

  lemma {:induction false} ReplaceAt(lines: seq<Line<int>>, k: nat, l: Line<int>, column: Column)
    requires k < |lines|
    ensures LinesSum(lines[k := l], column) == LinesSum(lines, column) - LinePart(lines[k], column) + LinePart(l, column)
  {
    if k > 0 {
      ReplaceAt(lines[1..], k - 1, l, column);
      assert lines[k := l][1..] == lines[1..][k - 1 := l];
    } else {
      assert lines[k := l][1..] == lines[1..];
    }
  }

  lemma AddGroup(s: Snapshot, groups: seq<Group<int>>, lines: seq<Line<int>>, g: Group<int>, l: Line<int>)
    requires LinesHold(s, groups, lines) && 0 <= g.key < |lines| && ConvertedAt(s, g.total, g.currency).Amount?
    requires l == Line(g.key, lines[g.key].total + ConvertedAt(s, g.total, g.currency).minorUnits, lines[g.key].count + g.count)
    ensures LinesHold(s, groups + [g], lines[g.key := l])
  {
    assert AllFit(s, groups + [g]);
    var after := lines[g.key := l];
    forall k | 0 <= k < |after| ensures IsLine(s, groups + [g], k, after[k]) {
      SumsGrow(s, groups, g, k, MinorUnits);
      SumsGrow(s, groups, g, k, Column.Expenses);
    }
    forall column ensures LinesSum(after, column) == PieceSum(s, groups + [g], column) {
      SumsGrow(s, groups, g, g.key, column);
      ReplaceAt(lines, g.key, l, column);
    }
  }

  lemma VisitGroup(daily: seq<DailyTotal>, periods: seq<Period>, order: seq<Currency>, m: nat, n: nat, groups: seq<Group<int>>, g: Group<int>)
    requires HaveDates(periods) && ConvertedDashboard.NoRepeats(order) && m < |order| && n < |periods|
    requires Visited(daily, periods, order, m, n, groups) && IsBucketGroup(daily, periods, g) && g.currency == order[m] && g.key == n
    ensures Visited(daily, periods, order, m, n + 1, groups + [g])
  {
    var now := groups + [g];
    forall x | 0 <= x < |groups| ensures !SameGroup(groups[x], g) {
      assert groups[x] in groups;
      var i :| 0 <= i < |order| && order[i] == groups[x].currency && Earlier(i, groups[x].key, m, n);
      assert i == m ==> groups[x].key < n;
      assert i != m ==> order[i] != order[m];
    }
    forall h | h in now ensures IsBucketGroup(daily, periods, h) && exists i :: 0 <= i < |order| && order[i] == h.currency && Earlier(i, h.key, m, n + 1) {
      if h in groups {
        var i :| 0 <= i < |order| && order[i] == h.currency && Earlier(i, h.key, m, n);
        assert Earlier(i, h.key, m, n + 1);
      } else {
        assert Earlier(m, h.key, m, n + 1);
      }
    }
    forall i, k | 0 <= i < |order| && 0 <= k < |periods| && Earlier(i, k, m, n + 1) && InBucket(daily, order[i], periods[k], Column.Expenses) > 0
      ensures Listed(now, order[i], k)
    {
      if Earlier(i, k, m, n) {
        assert Listed(groups, order[i], k);
        var x :| 0 <= x < |groups| && groups[x].currency == order[i] && groups[x].key == k;
        assert now[x] == groups[x];
      } else {
        assert now[|groups|] == g;
      }
    }
  }

  lemma SkipGroup(daily: seq<DailyTotal>, periods: seq<Period>, order: seq<Currency>, m: nat, n: nat, groups: seq<Group<int>>)
    requires HaveDates(periods) && m < |order| && n < |periods|
    requires Visited(daily, periods, order, m, n, groups) && InBucket(daily, order[m], periods[n], Column.Expenses) == 0
    ensures Visited(daily, periods, order, m, n + 1, groups)
  {
    forall h | h in groups ensures exists i :: 0 <= i < |order| && order[i] == h.currency && Earlier(i, h.key, m, n + 1) {
      var i :| 0 <= i < |order| && order[i] == h.currency && Earlier(i, h.key, m, n);
      assert Earlier(i, h.key, m, n + 1);
    }
    forall i, k | 0 <= i < |order| && 0 <= k < |periods| && Earlier(i, k, m, n + 1) && InBucket(daily, order[i], periods[k], Column.Expenses) > 0
      ensures Listed(groups, order[i], k)
    {
      assert Earlier(i, k, m, n);
    }
  }

  lemma NextCurrency(daily: seq<DailyTotal>, periods: seq<Period>, order: seq<Currency>, m: nat, groups: seq<Group<int>>)
    requires HaveDates(periods) && m < |order| && Visited(daily, periods, order, m, |periods|, groups)
    ensures Visited(daily, periods, order, m + 1, 0, groups)
  {
    forall h | h in groups ensures exists i :: 0 <= i < |order| && order[i] == h.currency && Earlier(i, h.key, m + 1, 0) {
      var i :| 0 <= i < |order| && order[i] == h.currency && Earlier(i, h.key, m, |periods|);
      assert Earlier(i, h.key, m + 1, 0);
    }
    forall i, k | 0 <= i < |order| && 0 <= k < |periods| && Earlier(i, k, m + 1, 0) && InBucket(daily, order[i], periods[k], Column.Expenses) > 0
      ensures Listed(groups, order[i], k)
    {
      assert Earlier(i, k, m, |periods|);
    }
  }

  /** What the bucket groups are once all currencies are done: every currency's non-empty buckets, each once. */
  ghost predicate AreBucketGroups(daily: seq<DailyTotal>, periods: seq<Period>, groups: seq<Group<int>>) {
    && HaveDates(periods) && Distinct(groups)
    && (forall g | g in groups :: IsBucketGroup(daily, periods, g))
    && (forall c: Currency, k | 0 <= k < |periods| && InBucket(daily, c, periods[k], Column.Expenses) > 0 :: Listed(groups, c, k))
  }

  /** Every non-empty bucket of every currency converts. */
  ghost predicate BucketsFit(s: Snapshot, daily: seq<DailyTotal>, periods: seq<Period>) {
    HaveDates(periods) && forall g | IsBucketGroup(daily, periods, g) :: ConvertedAt(s, g.total, g.currency).Amount?
  }

  lemma GroupsFit(s: Snapshot, daily: seq<DailyTotal>, periods: seq<Period>, groups: seq<Group<int>>)
    requires AreBucketGroups(daily, periods, groups) && AllFit(s, groups)
    ensures BucketsFit(s, daily, periods)
  {
    forall g | IsBucketGroup(daily, periods, g) ensures ConvertedAt(s, g.total, g.currency).Amount? {
      assert Listed(groups, g.currency, g.key);
      var x :| 0 <= x < |groups| && groups[x].currency == g.currency && groups[x].key == g.key;
      assert groups[x] in groups;
    }
  }

  lemma AllVisited(daily: seq<DailyTotal>, periods: seq<Period>, order: seq<Currency>, byCurrency: map<Currency, seq<DailyTotal>>, groups: seq<Group<int>>)
    requires HaveDates(periods) && Grouped(daily, order, byCurrency) && Visited(daily, periods, order, |order|, 0, groups)
    ensures AreBucketGroups(daily, periods, groups)
  {
    forall c: Currency, k | 0 <= k < |periods| && InBucket(daily, c, periods[k], Column.Expenses) > 0 ensures Listed(groups, c, k) {
      assert c in byCurrency && c in order;
      var i :| 0 <= i < |order| && order[i] == c;
      assert Earlier(i, k, |order|, 0);
    }
  }

  function EmptyLines(n: nat): seq<Line<int>> {
    seq(n, i => Line(i, 0, 0))
  }

  lemma {:induction false} NoLinesSum(lines: seq<Line<int>>, column: Column)
    requires forall i | 0 <= i < |lines| :: lines[i].total == 0 && lines[i].count == 0
    ensures LinesSum(lines, column) == 0
  {
    if lines != [] {
      NoLinesSum(lines[1..], column);
    }
  }

  /** Where the double loop stands: what has been visited is what the lines hold. */
  ghost predicate Progress(s: Snapshot, daily: seq<DailyTotal>, periods: seq<Period>, order: seq<Currency>, m: int, n: int,
      groups: seq<Group<int>>, lines: seq<Line<int>>)
  {
    HaveDates(periods) && Visited(daily, periods, order, m, n, groups) && LinesHold(s, groups, lines) && |lines| == |periods|
  }

  ghost predicate AreBuckets(buckets: seq<TimeBucket>, periods: seq<Period>, days: seq<DailyTotal>) {
    |buckets| == |periods| && forall n | 0 <= n < |buckets| :: IsBucket(buckets[n], periods[n], days)
  }

  lemma TakeBucket(s: Snapshot, daily: seq<DailyTotal>, periods: seq<Period>, order: seq<Currency>, m: nat, n: nat,
      groups: seq<Group<int>>, lines: seq<Line<int>>, bucket: TimeBucket, line: Line<int>)
    requires Progress(s, daily, periods, order, m, n, groups, lines)
    requires ConvertedDashboard.NoRepeats(order) && m < |order| && n < |periods|
    requires IsBucket(bucket, periods[n], DaysOf(daily, order[m])) && bucket.count != 0 && ConvertedAt(s, bucket.total, order[m]).Amount?
    requires line == Line(n, lines[n].total + ConvertedAt(s, bucket.total, order[m]).minorUnits, lines[n].count + bucket.count)
    ensures Progress(s, daily, periods, order, m, n + 1, groups + [Group(order[m], n, bucket.total, bucket.count)], lines[n := line])
  {
    var g := Group(order[m], n, bucket.total, bucket.count);
    AddGroup(s, groups, lines, g, line);
    VisitGroup(daily, periods, order, m, n, groups, g);
  }

  lemma PassBucket(s: Snapshot, daily: seq<DailyTotal>, periods: seq<Period>, order: seq<Currency>, m: nat, n: nat,
      groups: seq<Group<int>>, lines: seq<Line<int>>, bucket: TimeBucket)
    requires Progress(s, daily, periods, order, m, n, groups, lines) && m < |order| && n < |periods|
    requires IsBucket(bucket, periods[n], DaysOf(daily, order[m])) && bucket.count == 0
    ensures Progress(s, daily, periods, order, m, n + 1, groups, lines)
  {
    SkipGroup(daily, periods, order, m, n, groups);
  }

  lemma BucketsAre(buckets: seq<TimeBucket>, days: seq<DailyTotal>)
    requires forall t | t in buckets :: IsBucket(t, t.period, days)
    ensures AreBuckets(buckets, PeriodsOf(buckets), days)
  {
  }

  /** One bucket of one currency: converted and added to its line, unless it is empty. */
  method ConvertBucket(converter: Converter, daily: seq<DailyTotal>, periods: seq<Period>, ghost order: seq<Currency>, ghost m: nat, n: nat,
      c: Currency, bucket: TimeBucket, before: seq<Line<int>>, ghost groupsBefore: seq<Group<int>>)
      returns (ok: bool, lines: seq<Line<int>>, ghost groups: seq<Group<int>>)
    requires Progress(converter.snapshot, daily, periods, order, m, n, groupsBefore, before)
    requires ConvertedDashboard.NoRepeats(order) && m < |order| && order[m] == c && n < |periods|
    requires IsBucket(bucket, periods[n], DaysOf(daily, c))
    modifies converter
    ensures ok ==> Progress(converter.snapshot, daily, periods, order, m, n + 1, groups, lines)
    ensures !ok ==> !BucketsFit(converter.snapshot, daily, periods)
  {
    lines, groups := before, groupsBefore;
    if bucket.count != 0 {
      var converted := converter.Convert(bucket.total, c);
      if !converted.Amount? {
        assert IsBucketGroup(daily, periods, Group(c, n, bucket.total, bucket.count));
        return false, lines, groups;
      }
      var line := Line(n, before[n].total + converted.minorUnits, before[n].count + bucket.count);
      TakeBucket(converter.snapshot, daily, periods, order, m, n, groupsBefore, before, bucket, line);
      groups := groups + [Group(c, n, bucket.total, bucket.count)];
      lines := lines[n := line];
    } else {
      PassBucket(converter.snapshot, daily, periods, order, m, n, groupsBefore, before, bucket);
    }
    ok := true;
  }

  /** One currency's non-empty buckets, converted into the lines. */
  method ConvertCurrency(converter: Converter, daily: seq<DailyTotal>, periods: seq<Period>, buckets: seq<TimeBucket>,
      ghost order: seq<Currency>, ghost m: nat, c: Currency, before: seq<Line<int>>, ghost groupsBefore: seq<Group<int>>)
      returns (ok: bool, lines: seq<Line<int>>, ghost groups: seq<Group<int>>)
    requires ConvertedDashboard.NoRepeats(order) && m < |order| && order[m] == c
    requires AreBuckets(buckets, periods, DaysOf(daily, c))
    requires Progress(converter.snapshot, daily, periods, order, m, 0, groupsBefore, before)
    modifies converter
    ensures ok ==> Progress(converter.snapshot, daily, periods, order, m + 1, 0, groups, lines)
    ensures !ok ==> !BucketsFit(converter.snapshot, daily, periods)
  {
    lines, groups := before, groupsBefore;
    for n := 0 to |buckets|
      invariant Progress(converter.snapshot, daily, periods, order, m, n, groups, lines)
    {
      ok, lines, groups := ConvertBucket(converter, daily, periods, order, m, n, c, buckets[n], lines, groups);
      if !ok {
        return;
      }
    }
    NextCurrency(daily, periods, order, m, groups);
    ok := true;
  }

  lemma NothingConverted(s: Snapshot, daily: seq<DailyTotal>, periods: seq<Period>, order: seq<Currency>)
    requires HaveDates(periods)
    ensures Progress(s, daily, periods, order, 0, 0, [], EmptyLines(|periods|))
  {
    forall column {
      NoLinesSum(EmptyLines(|periods|), column);
    }
  }

  /** Convert each currency's bucket totals once each and add them up per bucket; a failed conversion ends it. */
  method ConvertBuckets(converter: Converter, p: Period, daily: seq<DailyTotal>)
      returns (r: Result<seq<Line<int>>>, ghost groups: seq<Group<int>>)
    requires ValidPeriod(p)
    modifies converter
    ensures IsLayout(p, LayoutOf(p)) && (r.Accepted? <==> BucketsFit(converter.snapshot, daily, LayoutOf(p).buckets))
    ensures r.Accepted? ==> AreBucketGroups(daily, LayoutOf(p).buckets, groups)
                            && |r.value| == |LayoutOf(p).buckets| && LinesHold(converter.snapshot, groups, r.value)
  {
    var layout := GetChartBuckets(p);
    LayoutHasDates(p, layout);
    var periods := layout.buckets;
    var order, byCurrency := ByCurrency(daily);
    var lines := EmptyLines(|periods|);
    groups := [];
    NothingConverted(converter.snapshot, daily, periods, order);
    for m := 0 to |order|
      invariant Progress(converter.snapshot, daily, periods, order, m, 0, groups, lines)
    {
      var over := BucketTotals(p, byCurrency[order[m]]);
      BucketsAre(over.buckets, DaysOf(daily, order[m]));
      var ok;
      ok, lines, groups := ConvertCurrency(converter, daily, periods, over.buckets, order, m, order[m], lines, groups);
      if !ok {
        return Rejected, groups;
      }
    }
    AllVisited(daily, periods, order, byCurrency, groups);
    GroupsFit(converter.snapshot, daily, periods, groups);
    return Accepted(lines), groups;
  }

  lemma LayoutHasDates(p: Period, layout: ChartBuckets)
    requires ValidPeriod(p) && IsLayout(p, layout)
    ensures HaveDates(layout.buckets)
  {
    TilesStayInside(layout.buckets, Ordinal(p.dateFrom), Ordinal(p.dateTo));
  }

  // --- the bucket groups are a grouping of the expenses ---

  /** The number of the bucket a day falls in; the number of buckets when in none. */
  function BucketIndex(periods: seq<Period>, day: int): nat {
    if periods == [] then 0
    else if HasDates(periods[0]) && Contains(periods[0], day) then 0
    else 1 + BucketIndex(periods[1..], day)
  }

  function BucketOf(periods: seq<Period>): Expense -> int {
    (e: Expense) => BucketIndex(periods, e.date)
  }

  lemma {:induction false} IndexFindsBucket(periods: seq<Period>, a: int, b: int, day: int, k: nat)
    requires Tiles(periods, a, b) && k < |periods|
    ensures HasDates(periods[k])
    ensures BucketIndex(periods, day) == k <==> Contains(periods[k], day)
    decreases |periods|
  {
    TilesStayInside(periods, a, b);
    var rest, from := periods[1..], Ordinal(periods[0].dateTo) + 1;
    TilesStayInside(rest, from, b);
    if k > 0 {
      IndexFindsBucket(rest, from, b, day, k - 1);
      assert rest[k - 1] == periods[k];
    }
  }

  lemma {:induction false} EveryDayHasABucket(periods: seq<Period>, a: int, b: int, day: int)
    requires Tiles(periods, a, b) && a <= day <= b
    ensures BucketIndex(periods, day) < |periods|
    decreases |periods|
  {
    if periods != [] && !Contains(periods[0], day) {
      EveryDayHasABucket(periods[1..], Ordinal(periods[0].dateTo) + 1, b, day);
    }
  }

  /** One currency's amount in a range of days. */
  function InRange(c: Currency, a: int, b: int): (Currency, int, nat) -> real {
    (d: Currency, day: int, m: nat) => if d == c && a <= day <= b then m as real else 0.0
  }

  lemma {:induction false} RangeOfGroups(daily: seq<DailyTotal>, c: Currency, a: int, b: int, column: Column)
    ensures GroupSum(daily, InRange(c, a, b), column) == DaysSum(DaysOf(daily, c), a, b, column) as real
  {
    if daily != [] {
      RangeOfGroups(daily[1..], c, a, b, column);
      if daily[0].currency == c {
        assert DaysOf(daily, c)[1..] == DaysOf(daily[1..], c);
      } else {
        assert DaysOf(daily, c) == DaysOf(daily[1..], c);
      }
    }
  }

  lemma {:induction false} RangeOfRows(rows: seq<Expense>, periods: seq<Period>, a: int, b: int, g: Group<int>, column: Column)
    requires Tiles(periods, a, b) && 0 <= g.key < |periods| && HasDates(periods[g.key])
    ensures RowSum(rows, DateOf(), InRange(g.currency, Ordinal(periods[g.key].dateFrom), Ordinal(periods[g.key].dateTo)), column)
         == Total(rows, g, BucketOf(periods), column) as real
  {
    if rows != [] {
      RangeOfRows(rows[1..], periods, a, b, g, column);
      IndexFindsBucket(periods, a, b, rows[0].date, g.key);
    }
  }

  lemma RangeIsAdditive(c: Currency, a: int, b: int)
    ensures Additive(InRange(c, a, b))
  {
    var f := InRange(c, a, b);
    forall d: Currency, k: int, m: nat, n: nat ensures Adds(f, d, k, m, n) {
    }
  }

  /** A currency's daily totals in a bucket add up to its expenses in that bucket. */
  lemma BucketHoldsRows(rows: seq<Expense>, daily: seq<DailyTotal>, periods: seq<Period>, a: int, b: int, g: Group<int>, column: Column)
    requires IsGroupBy(rows, DateOf(), daily) && Tiles(periods, a, b) && 0 <= g.key < |periods| && HasDates(periods[g.key])
    ensures InBucket(daily, g.currency, periods[g.key], column) == Total(rows, g, BucketOf(periods), column)
  {
    var from, to := Ordinal(periods[g.key].dateFrom), Ordinal(periods[g.key].dateTo);
    RangeIsAdditive(g.currency, from, to);
    GroupingConserves(rows, daily, DateOf(), InRange(g.currency, from, to), column);
    RangeOfGroups(daily, g.currency, from, to, column);
    RangeOfRows(rows, periods, a, b, g, column);
  }

  lemma {:induction false} RowsCount(rows: seq<Expense>, g: Group<int>, key: Expense -> int, e: Expense)
    requires e in rows && InGroup(g, key, e)
    ensures Total(rows, g, key, Column.Expenses) > 0
  {
    if e != rows[0] {
      RowsCount(rows[1..], g, key, e);
    }
  }

  lemma BucketCovers(rows: seq<Expense>, daily: seq<DailyTotal>, periods: seq<Period>, a: int, b: int, groups: seq<Group<int>>, e: Expense)
    requires IsGroupBy(rows, DateOf(), daily) && Tiles(periods, a, b) && AreBucketGroups(daily, periods, groups)
    requires e in rows && a <= e.date <= b
    ensures Covered(groups, BucketOf(periods), e)
  {
    var c, k := e.money.currency, BucketIndex(periods, e.date);
    EveryDayHasABucket(periods, a, b, e.date);
    IndexFindsBucket(periods, a, b, e.date, k);
    var g := Group(c, k, 0, 0);
    BucketHoldsRows(rows, daily, periods, a, b, g, Column.Expenses);
    RowsCount(rows, g, BucketOf(periods), e);
    assert Listed(groups, c, k);
    var x :| 0 <= x < |groups| && groups[x].currency == c && groups[x].key == k;
    assert InGroup(groups[x], BucketOf(periods), e);
  }

  /** Currency and bucket group the expenses of the period like any other GROUP BY. */
  lemma BucketGroupsGroup(rows: seq<Expense>, p: Period, daily: seq<DailyTotal>, groups: seq<Group<int>>)
    requires ValidPeriod(p) && IsLayout(p, LayoutOf(p)) && IsGroupBy(rows, DateOf(), daily) && AreBucketGroups(daily, LayoutOf(p).buckets, groups)
    requires forall e | e in rows :: Contains(p, e.date)
    ensures IsGroupBy(rows, BucketOf(LayoutOf(p).buckets), groups)
  {
    var periods, a, b := LayoutOf(p).buckets, Ordinal(p.dateFrom), Ordinal(p.dateTo);
    forall g | g in groups
      ensures g.total == Total(rows, g, BucketOf(periods), MinorUnits) && g.count == Total(rows, g, BucketOf(periods), Column.Expenses) && g.count > 0
    {
      assert IsBucketGroup(daily, periods, g);
      BucketHoldsRows(rows, daily, periods, a, b, g, MinorUnits);
      BucketHoldsRows(rows, daily, periods, a, b, g, Column.Expenses);
    }
    forall e | e in rows ensures Covered(groups, BucketOf(periods), e) {
      BucketCovers(rows, daily, periods, a, b, groups, e);
    }
  }

  /** The expenses whose currency has a rate. */
  function OnlyConvertible(s: Snapshot, rows: seq<Expense>): seq<Expense> {
    if rows == [] then []
    else (if Convertible(s, rows[0].money.currency) then [rows[0]] else []) + OnlyConvertible(s, rows[1..])
  }

  lemma {:induction false} OnlyConvertibleAre(s: Snapshot, rows: seq<Expense>, e: Expense)
    ensures e in OnlyConvertible(s, rows) <==> e in rows && Convertible(s, e.money.currency)
  {
    if rows != [] {
      OnlyConvertibleAre(s, rows[1..], e);
      assert e in rows <==> e == rows[0] || e in rows[1..];
    }
  }

  lemma {:induction false} ConvertibleOnlyAre<K(!new)>(s: Snapshot, groups: seq<Group<K>>)
    requires Distinct(groups)
    ensures Distinct(ConvertibleOnly(s, groups))
    ensures forall g :: g in ConvertibleOnly(s, groups) <==> g in groups && Convertible(s, g.currency)
  {
    if groups != [] {
      var rest := ConvertibleOnly(s, groups[1..]);
      ConvertibleOnlyAre(s, groups[1..]);
      assert forall g :: g in groups <==> g == groups[0] || g in groups[1..];
      forall i | 0 <= i < |rest| ensures !SameGroup(groups[0], rest[i]) {
        assert rest[i] in rest;
        var j :| 0 <= j < |groups[1..]| && groups[1..][j] == rest[i];
        assert groups[j + 1] == rest[i];
      }
    }
  }

  lemma {:induction false} SameTotal<K>(s: Snapshot, rows: seq<Expense>, g: Group<K>, key: Expense -> K, column: Column)
    requires Convertible(s, g.currency)
    ensures Total(OnlyConvertible(s, rows), g, key, column) == Total(rows, g, key, column)
  {
    if rows != [] {
      SameTotal(s, rows[1..], g, key, column);
      if Convertible(s, rows[0].money.currency) {
        assert OnlyConvertible(s, rows)[1..] == OnlyConvertible(s, rows[1..]);
      } else {
        assert OnlyConvertible(s, rows) == OnlyConvertible(s, rows[1..]);
      }
    }
  }

  /** Leaving out the groups without a rate is grouping the expenses with one. */
  lemma ConvertibleGroupsGroup<K(!new)>(s: Snapshot, rows: seq<Expense>, key: Expense -> K, groups: seq<Group<K>>)
    requires IsGroupBy(rows, key, groups)
    ensures IsGroupBy(OnlyConvertible(s, rows), key, ConvertibleOnly(s, groups))
  {
    var kept := ConvertibleOnly(s, groups);
    ConvertibleOnlyAre(s, groups);
    forall g | g in kept
      ensures g.total == Total(OnlyConvertible(s, rows), g, key, MinorUnits) && g.count == Total(OnlyConvertible(s, rows), g, key, Column.Expenses) && g.count > 0
    {
      SameTotal(s, rows, g, key, MinorUnits);
      SameTotal(s, rows, g, key, Column.Expenses);
    }
    forall e | e in OnlyConvertible(s, rows) ensures Covered(kept, key, e) {
      OnlyConvertibleAre(s, rows, e);
      var i :| 0 <= i < |groups| && InGroup(groups[i], key, e);
      assert groups[i] in kept;
      var j :| 0 <= j < |kept| && kept[j] == groups[i];
      assert InGroup(kept[j], key, e);
    }
  }

  lemma {:induction false} AllConvertible<K>(s: Snapshot, groups: seq<Group<K>>)
    requires forall g | g in groups :: Convertible(s, g.currency)
    ensures ConvertibleOnly(s, groups) == groups
  {
    if groups != [] {
      assert groups[0] in groups;
      AllConvertible(s, groups[1..]);
    }
  }

  /** The same for expenses that all have a rate. */
  lemma ConvertibleChartAgrees(s: Snapshot, e: real, rows: seq<Expense>, p: Period, totals: seq<Group<()>>, daily: seq<DailyTotal>,
      groups: seq<Group<int>>, lines: seq<Line<int>>)
    requires Sound(s, e) && ValidPeriod(p) && IsLayout(p, LayoutOf(p))
    requires forall x | x in rows :: Contains(p, x.date) && Convertible(s, x.money.currency)
    requires IsGroupBy(rows, (x: Expense) => (), totals) && IsGroupBy(rows, DateOf(), daily)
    requires AreBucketGroups(daily, LayoutOf(p).buckets, groups) && LinesHold(s, groups, lines) && AllFit(s, totals)
    ensures Apart(LinesSum(lines, MinorUnits), ConvertedSum(s, totals), Foreign(s, groups) + Foreign(s, totals), RowsForeignWorth(s, rows), e)
    ensures LinesSum(lines, Column.Expenses) == ColumnSum(totals, Column.Expenses)
  {
    var key := BucketOf(LayoutOf(p).buckets);
    BucketGroupsGroup(rows, p, daily, groups);
    forall g | g in groups ensures Convertible(s, g.currency) {
      GroupHasARow(rows, g, key);
    }
    forall g | g in totals ensures Convertible(s, g.currency) {
      GroupHasARow(rows, g, (x: Expense) => ());
    }
    AllConvertible(s, groups);
    AllConvertible(s, totals);
    PieceSums(s, groups);
    ColumnsConserved(rows, groups, key, Column.Expenses);
    ColumnsConserved(rows, totals, (x: Expense) => (), Column.Expenses);
    BreakdownsAgree(s, e, rows, key, groups, (x: Expense) => (), totals);
  }

  lemma {:induction false} OthersAreWorthNothing(s: Snapshot, rows: seq<Expense>)
    ensures RowsForeignWorth(s, OnlyConvertible(s, rows)) == RowsForeignWorth(s, rows)
    ensures |OnlyConvertible(s, rows)| == ConvertibleRows(s, rows)
  {
    if rows != [] {
      OthersAreWorthNothing(s, rows[1..]);
      if Convertible(s, rows[0].money.currency) {
        assert OnlyConvertible(s, rows)[1..] == OnlyConvertible(s, rows[1..]);
      } else {
        assert OnlyConvertible(s, rows) == OnlyConvertible(s, rows[1..]);
      }
    }
  }

  lemma KeptRowsLieInside(s: Snapshot, rows: seq<Expense>, p: Period, kept: seq<Expense>)
    requires HasDates(p) && kept == OnlyConvertible(s, rows) && forall x | x in rows :: Contains(p, x.date)
    ensures forall x | x in kept :: Contains(p, x.date) && Convertible(s, x.money.currency)
  {
    forall x | x in kept ensures Contains(p, x.date) && Convertible(s, x.money.currency) {
      OnlyConvertibleAre(s, rows, x);
    }
  }

  lemma KeptGroupsGroup(s: Snapshot, rows: seq<Expense>, kept: seq<Expense>, totals: seq<Group<()>>, daily: seq<DailyTotal>)
    requires kept == OnlyConvertible(s, rows)
    requires IsGroupBy(rows, (x: Expense) => (), totals) && IsGroupBy(rows, DateOf(), daily)
    ensures IsGroupBy(kept, (x: Expense) => (), ConvertibleOnly(s, totals)) && IsGroupBy(kept, DateOf(), ConvertibleOnly(s, daily))
  {
    ConvertibleGroupsGroup(s, rows, (x: Expense) => (), totals);
    ConvertibleGroupsGroup(s, rows, DateOf(), daily);
  }

  /**
   * The converted chart and the converted totals, and so every other breakdown, agree up to their own
   * roundings, and the chart counts every expense that has a rate once. `rows` are all expenses of the
   * period; totals of currencies without a rate are left out before anything is converted.
   */
  lemma ChartAgrees(s: Snapshot, e: real, rows: seq<Expense>, p: Period, totals: seq<Group<()>>, daily: seq<DailyTotal>,
      groups: seq<Group<int>>, lines: seq<Line<int>>)
    requires Sound(s, e) && ValidPeriod(p) && IsLayout(p, LayoutOf(p))
    requires forall x | x in rows :: Contains(p, x.date)
    requires IsGroupBy(rows, (x: Expense) => (), totals) && IsGroupBy(rows, DateOf(), daily)
    requires AreBucketGroups(ConvertibleOnly(s, daily), LayoutOf(p).buckets, groups) && LinesHold(s, groups, lines)
    requires AllFit(s, ConvertibleOnly(s, totals))
    ensures Apart(LinesSum(lines, MinorUnits), ConvertedSum(s, ConvertibleOnly(s, totals)),
                  Foreign(s, groups) + Foreign(s, ConvertibleOnly(s, totals)), RowsForeignWorth(s, rows), e)
    ensures LinesSum(lines, Column.Expenses) == ColumnSum(ConvertibleOnly(s, totals), Column.Expenses) == ConvertibleRows(s, rows)
  {
    var kept := OnlyConvertible(s, rows);
    KeptRowsLieInside(s, rows, p, kept);
    KeptGroupsGroup(s, rows, kept, totals, daily);
    ConvertibleChartAgrees(s, e, kept, p, ConvertibleOnly(s, totals), ConvertibleOnly(s, daily), groups, lines);
    OthersAreWorthNothing(s, rows);
    CountsAgree(s, rows, (x: Expense) => (), totals);
  }
}
