/** The dashboard of one currency: totals over time, categories and merchants, and their shares. */
module Dashboard {
  import opened Wrappers
  import opened Amounts
  import opened Expenses
  import opened Aggregates
  import opened Calendar
  import opened Periods
  import opened Rounding
  import opened Sorting

  const TOP_MERCHANT_COUNT := 5
  const BASIS_POINTS := 10_000

  // --- spending over time ---

  /** A group per currency and day, the day being a calendar day number. */
  type DailyTotal = Group<int>

  datatype TimeBucket = TimeBucket(period: Period, total: nat, count: nat)

  datatype SpendingOverTime = SpendingOverTime(granularity: Granularity, buckets: seq<TimeBucket>)

  /** The column over the days from `a` to `b`. */
  function DaysSum(daily: seq<DailyTotal>, a: int, b: int, column: Column): nat {
    if daily == [] then 0
    else (if a <= daily[0].key <= b then Part(daily[0], column) else 0) + DaysSum(daily[1..], a, b, column)
  }

  function PeriodSum(daily: seq<DailyTotal>, p: Period, column: Column): nat
    requires HasDates(p)
  {
    DaysSum(daily, Ordinal(p.dateFrom), Ordinal(p.dateTo), column)
  }

  function Inside(daily: seq<DailyTotal>, p: Period): seq<DailyTotal>
    requires HasDates(p)
  {
    if daily == [] then []
    else (if Contains(p, daily[0].key) then [daily[0]] else []) + Inside(daily[1..], p)
  }

  lemma {:induction false} InsideSum(daily: seq<DailyTotal>, p: Period, column: Column)
    requires HasDates(p)
    ensures ColumnSum(Inside(daily, p), column) == PeriodSum(daily, p, column)
  {
    if daily != [] {
      InsideSum(daily[1..], p, column);
      if Contains(p, daily[0].key) {
        assert Inside(daily, p)[1..] == Inside(daily[1..], p);
      } else {
        assert Inside(daily, p) == Inside(daily[1..], p);
      }
    }
  }

  ghost predicate IsBucket(t: TimeBucket, p: Period, daily: seq<DailyTotal>) {
    t.period == p && HasDates(p) && t.total == PeriodSum(daily, p, MinorUnits) && t.count == PeriodSum(daily, p, Expenses)
  }

  lemma InsideMakesBucket(daily: seq<DailyTotal>, p: Period)
    requires HasDates(p)
    ensures var inside := Inside(daily, p); IsBucket(TimeBucket(p, ColumnSum(inside, MinorUnits), ColumnSum(inside, Expenses)), p, daily)
  {
    InsideSum(daily, p, MinorUnits);
    InsideSum(daily, p, Expenses);
  }

  function PeriodsOf(buckets: seq<TimeBucket>): seq<Period> {
    seq(|buckets|, i requires 0 <= i < |buckets| => buckets[i].period)
  }

  /** One bucket, with the days inside it added up. */
  method BucketTotal(bucket: Period, daily: seq<DailyTotal>) returns (t: TimeBucket)
    requires HasDates(bucket)
    ensures t.period == bucket && IsBucket(t, bucket, daily)
  {
    InsideMakesBucket(daily, bucket);
    var inside := Inside(daily, bucket);
    return TimeBucket(bucket, ColumnSum(inside, MinorUnits), ColumnSum(inside, Expenses));
  }

  lemma PeriodsAppend(buckets: seq<TimeBucket>, next: TimeBucket)
    ensures PeriodsOf(buckets + [next]) == PeriodsOf(buckets) + [next.period]
  {
  }

  /** Each bucket of the period's layout, with the days inside it added up. */
  method BucketTotals(p: Period, daily: seq<DailyTotal>) returns (over: SpendingOverTime)
    requires ValidPeriod(p)
    ensures ChartBuckets(over.granularity, PeriodsOf(over.buckets)) == LayoutOf(p) && IsLayout(p, LayoutOf(p))
    ensures forall t | t in over.buckets :: IsBucket(t, t.period, daily)
  {
    var layout := GetChartBuckets(p);
    var buckets: seq<TimeBucket> := [];
    for i := 0 to |layout.buckets|
      invariant PeriodsOf(buckets) == layout.buckets[..i]
      invariant forall t | t in buckets :: IsBucket(t, t.period, daily)
    {
      var bucket := layout.buckets[i];
      assert bucket in layout.buckets;
      var next := BucketTotal(bucket, daily);
      PeriodsAppend(buckets, next);
      buckets := buckets + [next];
    }
    assert layout.buckets[..|layout.buckets|] == layout.buckets;
    return SpendingOverTime(layout.granularity, buckets);
  }

  function BucketPart(t: TimeBucket, column: Column): nat {
    if column.MinorUnits? then t.total else t.count
  }

  function BucketsSum(buckets: seq<TimeBucket>, column: Column): nat {
    if buckets == [] then 0 else BucketPart(buckets[0], column) + BucketsSum(buckets[1..], column)
  }

  lemma {:induction false} DaysSplit(daily: seq<DailyTotal>, a: int, m: int, b: int, column: Column)
    requires a <= m + 1 <= b + 1
    ensures DaysSum(daily, a, b, column) == DaysSum(daily, a, m, column) + DaysSum(daily, m + 1, b, column)
  {
    if daily != [] {
      DaysSplit(daily[1..], a, m, b, column);
    }
  }

  lemma {:induction false} NoDays(daily: seq<DailyTotal>, a: int, column: Column)
    ensures DaysSum(daily, a, a - 1, column) == 0
  {
    if daily != [] {
      NoDays(daily[1..], a, column);
    }
  }

  /** Adjacent buckets add up to the whole range. */
  lemma {:induction false} BucketsAddUp(buckets: seq<TimeBucket>, daily: seq<DailyTotal>, a: int, b: int, column: Column)
    requires Tiles(PeriodsOf(buckets), a, b) && forall t | t in buckets :: IsBucket(t, t.period, daily)
    ensures BucketsSum(buckets, column) == DaysSum(daily, a, b, column)
    decreases |buckets|
  {
    if buckets == [] {
      NoDays(daily, a, column);
    } else {
      var m := Ordinal(buckets[0].period.dateTo);
      assert PeriodsOf(buckets)[1..] == PeriodsOf(buckets[1..]);
      assert PeriodsOf(buckets)[0] == buckets[0].period && buckets[0] in buckets;
      TilesStayInside(PeriodsOf(buckets[1..]), m + 1, b);
      BucketsAddUp(buckets[1..], daily, m + 1, b, column);
      DaysSplit(daily, a, m, b, column);
    }
  }

  lemma {:induction false} AllDays(daily: seq<DailyTotal>, a: int, b: int, column: Column)
    requires forall d | d in daily :: a <= d.key <= b
    ensures DaysSum(daily, a, b, column) == ColumnSum(daily, column)
  {
    if daily != [] {
      assert daily[0] in daily;
      AllDays(daily[1..], a, b, column);
    }
  }

  /** A query over one period and currency answers with rows of that period and currency. */
  ghost predicate Selected(rows: seq<Expense>, p: Period, currency: Currency)
    requires HasDates(p)
  {
    forall e | e in rows :: Contains(p, e.date) && e.money.currency == currency
  }

  function DateOf(): Expense -> int {
    (e: Expense) => e.date
  }

  lemma {:induction false} GroupHasARow<K>(rows: seq<Expense>, g: Group<K>, key: Expense -> K)
    requires Total(rows, g, key, Column.Expenses) > 0
    ensures exists e :: e in rows && InGroup(g, key, e)
  {
    if InGroup(g, key, rows[0]) {
      assert rows[0] in rows;
    } else {
      GroupHasARow(rows[1..], g, key);
      var e :| e in rows[1..] && InGroup(g, key, e);
      assert e in rows;
    }
  }

  /** Buckets conserve totals and counts: together they hold exactly what the period holds. */
  lemma BucketsConserve(rows: seq<Expense>, p: Period, currency: Currency, daily: seq<DailyTotal>, over: SpendingOverTime, column: Column)
    requires ValidPeriod(p) && Selected(rows, p, currency) && IsGroupBy(rows, DateOf(), daily)
    requires IsLayout(p, ChartBuckets(over.granularity, PeriodsOf(over.buckets)))
    requires forall t | t in over.buckets :: IsBucket(t, t.period, daily)
    ensures BucketsSum(over.buckets, column) == RowsSum(rows, column)
  {
    var a, b := Ordinal(p.dateFrom), Ordinal(p.dateTo);
    forall d | d in daily ensures a <= d.key <= b {
      GroupHasARow(rows, d, DateOf());
    }
    BucketsAddUp(over.buckets, daily, a, b, column);
    AllDays(daily, a, b, column);
    ColumnsConserved(rows, daily, DateOf(), column);
  }

  // --- shares ---

  /** `part / whole` in basis points, rounded half-even. */
  function ShareBasisPoints(part: int, whole: int): int {
    if whole <= 0 then 0 else HalfEven((part * BASIS_POINTS) as real / whole as real)
  }

  /** A part of a whole has between no and all of its basis points. */
  lemma ShareOfAPart(part: int, whole: int)
    requires 0 <= part <= whole
    ensures 0 <= ShareBasisPoints(part, whole) <= BASIS_POINTS
  {
    if whole > 0 {
      var q := (part * BASIS_POINTS) as real / whole as real;
      Quotient((part * BASIS_POINTS) as real, BASIS_POINTS as real, whole as real);
      Quotient((part * BASIS_POINTS) as real, 0.0, whole as real);
      HalfEvenKeepsIntegers(0);
      HalfEvenKeepsIntegers(BASIS_POINTS);
      HalfEvenIsMonotone(0.0, q);
      HalfEvenIsMonotone(q, BASIS_POINTS as real);
    }
  }

  function SharesSum<K>(groups: seq<Group<K>>, whole: int): int {
    if groups == [] then 0 else ShareBasisPoints(groups[0].total, whole) + SharesSum(groups[1..], whole)
  }

  lemma AddQuotients(a: int, b: int, whole: int, c: int)
    requires whole > 0 && c == a + b
    ensures c as real / whole as real == a as real / whole as real + b as real / whole as real
  {
  }

  lemma {:induction false} SharesNear<K>(groups: seq<Group<K>>, whole: int, part: int)
    requires whole > 0 && part == ColumnSum(groups, MinorUnits)
    ensures var exact := (part * BASIS_POINTS) as real / whole as real;
            exact - 0.5 * |groups| as real <= SharesSum(groups, whole) as real <= exact + 0.5 * |groups| as real
  {
    if groups != [] {
      var rest := ColumnSum(groups[1..], MinorUnits);
      SharesNear(groups[1..], whole, rest);
      AddQuotients(groups[0].total * BASIS_POINTS, rest * BASIS_POINTS, whole, part * BASIS_POINTS);
    }
  }

  /** The shares of all parts add up to 100 percent, give or take half a basis point each. */
  lemma SharesAddUp<K>(groups: seq<Group<K>>, whole: int)
    requires whole > 0 && whole == ColumnSum(groups, MinorUnits)
    ensures -|groups| <= 2 * (SharesSum(groups, whole) - BASIS_POINTS) <= |groups|
  {
    SharesNear(groups, whole, whole);
    var exact := (whole * BASIS_POINTS) as real / whole as real;
    Quotient((whole * BASIS_POINTS) as real, BASIS_POINTS as real, whole as real);
    assert exact == BASIS_POINTS as real;
  }

  // --- top merchants ---

  type MerchantTotal = Group<Option<string>>

  datatype MerchantSpending = MerchantSpending(merchant: Option<string>, total: nat, count: nat, share: int)

  datatype TopMerchants = TopMerchants(merchants: seq<MerchantSpending>, other: Option<MerchantSpending>)

  function NameOf(m: MerchantTotal): string {
    m.key.GetOr("")
  }

  /** Larger totals first, then names in order. */
  predicate RankLe(a: MerchantTotal, b: MerchantTotal) {
    a.total > b.total || (a.total == b.total && StringLe(NameOf(a), NameOf(b)))
  }

  function Rank(): (MerchantTotal, MerchantTotal) -> bool {
    (a, b) => RankLe(a, b)
  }

  lemma RankIsTotal()
    ensures TotalOrder(Rank())
  {
    forall a: MerchantTotal, b: MerchantTotal ensures Rank()(a, b) || Rank()(b, a) {
      StringLeTotal(NameOf(a), NameOf(b));
    }
    forall a: MerchantTotal, b: MerchantTotal, c: MerchantTotal | Rank()(a, b) && Rank()(b, c) ensures Rank()(a, c) {
      if a.total == c.total {
        StringLeTransitive(NameOf(a), NameOf(b), NameOf(c));
      }
    }
  }

  function Named(totals: seq<MerchantTotal>): seq<MerchantTotal> {
    if totals == [] then []
    else (if totals[0].key.Some? then [totals[0]] else []) + Named(totals[1..])
  }

  function Unnamed(totals: seq<MerchantTotal>): seq<MerchantTotal> {
    if totals == [] then []
    else (if totals[0].key.None? then [totals[0]] else []) + Unnamed(totals[1..])
  }

  function Ranked(totals: seq<MerchantTotal>): seq<MerchantTotal> {
    Sort(Named(totals), Rank())
  }

  function Top(totals: seq<MerchantTotal>): seq<MerchantTotal> {
    if |Ranked(totals)| <= TOP_MERCHANT_COUNT then Ranked(totals) else Ranked(totals)[..TOP_MERCHANT_COUNT]
  }

  /** The merchants that are not named one by one. */
  function Rest(totals: seq<MerchantTotal>): seq<MerchantTotal> {
    Ranked(totals)[|Top(totals)|..] + Unnamed(totals)
  }

  function Spending(m: MerchantTotal, grandTotal: int): MerchantSpending {
    MerchantSpending(m.key, m.total, m.count, ShareBasisPoints(m.total, grandTotal))
  }

  function GetTopMerchants(totals: seq<MerchantTotal>, grandTotal: int): TopMerchants {
    var top, rest := Top(totals), Rest(totals);
    var otherTotal, otherCount := ColumnSum(rest, MinorUnits), ColumnSum(rest, Column.Expenses);
    TopMerchants(
      seq(|top|, i requires 0 <= i < |top| => Spending(top[i], grandTotal)),
      if otherCount != 0 then Some(MerchantSpending(None, otherTotal, otherCount, ShareBasisPoints(otherTotal, grandTotal))) else None)
  }

  function SpendingPart(s: MerchantSpending, column: Column): nat {
    if column.MinorUnits? then s.total else s.count
  }

  function SpendingSum(s: seq<MerchantSpending>, column: Column): nat {
    if s == [] then 0 else SpendingPart(s[0], column) + SpendingSum(s[1..], column)
  }

  function ShownSum(top: TopMerchants, column: Column): nat {
    SpendingSum(top.merchants, column) + (if top.other.Some? then SpendingPart(top.other.value, column) else 0)
  }

  lemma {:induction false} SumOfConcat<K>(a: seq<Group<K>>, b: seq<Group<K>>, column: Column)
    ensures ColumnSum(a + b, column) == ColumnSum(a, column) + ColumnSum(b, column)
  {
    if a == [] {
      assert a + b == b;
    } else {
      assert (a + b)[1..] == a[1..] + b;
      SumOfConcat(a[1..], b, column);
    }
  }

  lemma {:induction false} SumOfInsert(x: MerchantTotal, s: seq<MerchantTotal>, column: Column)
    ensures ColumnSum(Insert(x, s, Rank()), column) == Part(x, column) + ColumnSum(s, column)
  {
    if s == [] || Rank()(x, s[0]) {
      assert ([x] + s)[1..] == s;
    } else {
      SumOfInsert(x, s[1..], column);
      assert ([s[0]] + Insert(x, s[1..], Rank()))[1..] == Insert(x, s[1..], Rank());
    }
  }

  lemma {:induction false} SumOfSort(s: seq<MerchantTotal>, column: Column)
    ensures ColumnSum(Sort(s, Rank()), column) == ColumnSum(s, column)
  {
    if s != [] {
      SumOfSort(s[1..], column);
      SumOfInsert(s[0], Sort(s[1..], Rank()), column);
    }
  }

  lemma {:induction false} NamedAndUnnamed(totals: seq<MerchantTotal>, column: Column)
    ensures ColumnSum(Named(totals), column) + ColumnSum(Unnamed(totals), column) == ColumnSum(totals, column)
  {
    if totals != [] {
      NamedAndUnnamed(totals[1..], column);
      SumOfConcat(if totals[0].key.Some? then [totals[0]] else [], Named(totals[1..]), column);
      SumOfConcat(if totals[0].key.None? then [totals[0]] else [], Unnamed(totals[1..]), column);
    }
  }

  lemma {:induction false} SpendingKeepsSums(top: seq<MerchantTotal>, grandTotal: int, shown: seq<MerchantSpending>, column: Column)
    requires |shown| == |top| && forall i | 0 <= i < |top| :: shown[i] == Spending(top[i], grandTotal)
    ensures SpendingSum(shown, column) == ColumnSum(top, column)
  {
    if top != [] {
      SpendingKeepsSums(top[1..], grandTotal, shown[1..], column);
    }
  }

  /** Every group has a row, so a group list without rows has no total either. */
  lemma {:induction false} NoRowsNoTotal(groups: seq<MerchantTotal>)
    requires forall g | g in groups :: g.count > 0
    ensures ColumnSum(groups, Column.Expenses) == 0 ==> groups == []
  {
    if groups != [] {
      assert groups[0] in groups;
    }
  }

  lemma {:induction false} UnnamedComeFrom(totals: seq<MerchantTotal>)
    ensures forall g | g in Unnamed(totals) :: g in totals && g.key.None?
    ensures forall g | g in Named(totals) :: g in totals && g.key.Some?
    ensures forall g | g in totals :: g in Named(totals) || g in Unnamed(totals)
  {
    if totals != [] {
      UnnamedComeFrom(totals[1..]);
      assert totals == [totals[0]] + totals[1..];
    }
  }

  lemma RankedComeFrom(totals: seq<MerchantTotal>, g: MerchantTotal)
    ensures g in Ranked(totals) <==> g in totals && g.key.Some?
  {
    UnnamedComeFrom(totals);
    assert g in multiset(Ranked(totals)) <==> g in multiset(Named(totals));
  }

  lemma RestComesFrom(totals: seq<MerchantTotal>, g: MerchantTotal)
    requires g in Rest(totals)
    ensures g in totals
  {
    UnnamedComeFrom(totals);
    RankedComeFrom(totals, g);
  }

  /** The merchants shown and "Other" together hold all totals and all counts. */
  lemma TopMerchantsConserve(totals: seq<MerchantTotal>, grandTotal: int, column: Column)
    requires forall g | g in totals :: g.count > 0
    ensures ShownSum(GetTopMerchants(totals, grandTotal), column) == ColumnSum(totals, column)
  {
    var shown := GetTopMerchants(totals, grandTotal);
    SpendingKeepsSums(Top(totals), grandTotal, shown.merchants, column);
    OtherHoldsTheRest(totals, grandTotal, column);
    SplitTotals(totals, column);
  }

  lemma OtherHoldsTheRest(totals: seq<MerchantTotal>, grandTotal: int, column: Column)
    requires forall g | g in totals :: g.count > 0
    ensures var other := GetTopMerchants(totals, grandTotal).other;
            (if other.Some? then SpendingPart(other.value, column) else 0) == ColumnSum(Rest(totals), column)
  {
    forall g | g in Rest(totals) ensures g.count > 0 {
      RestComesFrom(totals, g);
    }
    NoRowsNoTotal(Rest(totals));
  }

  lemma SplitTotals(totals: seq<MerchantTotal>, column: Column)
    ensures ColumnSum(Top(totals), column) + ColumnSum(Rest(totals), column) == ColumnSum(totals, column)
  {
    var ranked, top := Ranked(totals), Top(totals);
    assert ranked == top + ranked[|top|..];
    SumOfConcat(top, ranked[|top|..], column);
    SumOfConcat(ranked[|top|..], Unnamed(totals), column);
    SumOfSort(Named(totals), column);
    NamedAndUnnamed(totals, column);
  }

  lemma RankedIsSorted(totals: seq<MerchantTotal>)
    ensures forall i, j | 0 <= i < j < |Ranked(totals)| :: RankLe(Ranked(totals)[i], Ranked(totals)[j])
  {
    RankIsTotal();
    SortSorts(Named(totals), Rank());
    forall i, j | 0 <= i < j < |Ranked(totals)| ensures RankLe(Ranked(totals)[i], Ranked(totals)[j]) {
      assert Rank()(Ranked(totals)[i], Ranked(totals)[j]);
    }
  }

  /** A named merchant left to "Other" comes later in the ranking than every one shown. */
  lemma RestRanksBelow(totals: seq<MerchantTotal>, m: MerchantTotal, g: MerchantTotal)
    requires m in Top(totals) && g in Rest(totals) && g.key.Some?
    ensures RankLe(m, g)
  {
    var ranked, n := Ranked(totals), |Top(totals)|;
    RankedIsSorted(totals);
    UnnamedComeFrom(totals);
    var i :| 0 <= i < n && Top(totals)[i] == m;
    assert g in ranked[n..];
    var j :| 0 <= j < |ranked[n..]| && ranked[n..][j] == g;
    assert ranked[i] == m && ranked[n + j] == g;
  }

  /** At most five named merchants are shown, in order, and none left in "Other" ranks above one of them. */
  lemma TopMerchantsRank(totals: seq<MerchantTotal>)
    ensures |Top(totals)| <= TOP_MERCHANT_COUNT
    ensures forall i, j | 0 <= i < j < |Top(totals)| :: RankLe(Top(totals)[i], Top(totals)[j])
    ensures forall m | m in Top(totals) :: m in totals && m.key.Some?
    ensures forall m, g | m in Top(totals) && g in Rest(totals) && g.key.Some? :: RankLe(m, g)
    ensures |Top(totals)| < TOP_MERCHANT_COUNT ==> forall g | g in totals && g.key.Some? :: g in Top(totals)
  {
    RankedIsSorted(totals);
    forall g ensures g in Ranked(totals) <==> g in totals && g.key.Some? {
      RankedComeFrom(totals, g);
    }
    forall m, g | m in Top(totals) && g in Rest(totals) && g.key.Some? ensures RankLe(m, g) {
      RestRanksBelow(totals, m, g);
    }
  }

  /** Buckets, categories, and merchants with "Other" all hold the currency's own total and count. */
  lemma DashboardAddsUp(rows: seq<Expense>, p: Period, currency: Currency,
      currencyTotals: seq<Group<()>>, daily: seq<DailyTotal>, categories: seq<Group<string>>, merchants: seq<MerchantTotal>,
      over: SpendingOverTime, grandTotal: int, column: Column)
    requires ValidPeriod(p) && Selected(rows, p, currency)
    requires IsGroupBy(rows, e => (), currencyTotals) && IsGroupBy(rows, DateOf(), daily)
    requires IsGroupBy(rows, (e: Expense) => e.category, categories) && IsGroupBy(rows, (e: Expense) => e.merchant, merchants)
    requires IsLayout(p, ChartBuckets(over.granularity, PeriodsOf(over.buckets)))
    requires forall t | t in over.buckets :: IsBucket(t, t.period, daily)
    ensures BucketsSum(over.buckets, column)
         == ColumnSum(categories, column)
         == ShownSum(GetTopMerchants(merchants, grandTotal), column)
         == ColumnSum(currencyTotals, column)
  {
    BucketsConserve(rows, p, currency, daily, over, column);
    ColumnsConserved(rows, currencyTotals, e => (), column);
    ColumnsConserved(rows, categories, (e: Expense) => e.category, column);
    ColumnsConserved(rows, merchants, (e: Expense) => e.merchant, column);
    TopMerchantsConserve(merchants, grandTotal, column);
  }
}
