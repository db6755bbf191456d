/** The dashboard converted into one currency: each group converts and rounds once, then groups add up. */
module ConvertedDashboard {
  import opened Wrappers
  import opened Amounts
  import opened Expenses
  import opened Aggregates
  import opened Rounding
  import R = Rates

  /** Conversion into one currency: what it answers, and the exact rational rate it approximates, if there is one. */
  datatype Snapshot = Snapshot(target: Currency, convert: (nat, Currency) -> R.Converted, exactRate: Currency -> Option<real>)

  /** The conversion at a table of stored rates. */
  function AtRates(context: R.Context, rates: R.RateTable, target: Currency): Snapshot {
    Snapshot(target,
             (m: nat, c: Currency) => R.Convert(context, rates, m, c, target),
             (c: Currency) => if R.CanConvert(rates, c, target) then Some(R.ExactRate(rates, c, target)) else None)
  }

  predicate Convertible(s: Snapshot, c: Currency) {
    s.exactRate(c).Some?
  }

  function ConvertedAt(s: Snapshot, minorUnits: nat, c: Currency): R.Converted {
    s.convert(minorUnits, c)
  }

  /** An answer is exact into the same currency, and otherwise rounded once to a minor unit after a small drift. */
  predicate AnswersWell(r: R.Converted, m: nat, same: bool, rate: Option<real>, e: real) {
    && (r.NoRate? <==> rate.None?)
    && (same ==> rate == Some(1.0) && r == R.Amount(m))
    && (!same && rate.Some? && r.Amount? ==> R.Close(r.minorUnits, m as real * rate.value, e))
  }

  predicate ConvertsWell(s: Snapshot, m: nat, c: Currency, e: real) {
    AnswersWell(s.convert(m, c), m, c == s.target, s.exactRate(c), e)
  }

  ghost predicate Sound(s: Snapshot, e: real) {
    forall m, c :: ConvertsWell(s, m, c, e)
  }

  lemma AnswersAssemble(r: R.Converted, m: nat, same: bool, rate: Option<real>, e: real, exact: real)
    requires (r.NoRate? <==> rate.None?) && (same ==> rate == Some(1.0) && r == R.Amount(m))
    requires !same && rate.Some? && r.Amount? ==> exact == m as real * rate.value && R.Close(r.minorUnits, exact, e)
    ensures AnswersWell(r, m, same, rate, e)
  {
  }

  lemma RatesAnswer(context: R.Context, rates: R.RateTable, target: Currency, m: nat, c: Currency, r: R.Converted, rate: Option<real>)
    requires r == R.Convert(context, rates, m, c, target)
    requires rate == if R.CanConvert(rates, c, target) then Some(R.ExactRate(rates, c, target)) else None
    ensures (r.NoRate? <==> rate.None?) && (c == target ==> rate == Some(1.0) && r == R.Amount(m))
  {
    R.ConvertNeedsRates(context, rates, m, c, target);
  }

  lemma ConvertAnswersWell(context: R.Context, epsilon: real, rates: R.RateTable, target: Currency, m: nat, c: Currency,
      r: R.Converted, rate: Option<real>, e: real)
    requires R.Correct(context, epsilon) && 0.0 < epsilon <= 0.1 && e == 4.0 * epsilon
    requires r == R.Convert(context, rates, m, c, target)
    requires rate == if R.CanConvert(rates, c, target) then Some(R.ExactRate(rates, c, target)) else None
    ensures AnswersWell(r, m, c == target, rate, e)
  {
    RatesAnswer(context, rates, target, m, c, r, rate);
    var exact := if rate.Some? then m as real * rate.value else 0.0;
    if c != target && r.Amount? {
      ForeignAnswersWell(context, epsilon, rates, target, m, c, r, rate.value, exact, e);
    }
    AnswersAssemble(r, m, c == target, rate, e, exact);
  }

  lemma ForeignAnswersWell(context: R.Context, epsilon: real, rates: R.RateTable, target: Currency, m: nat, c: Currency,
      r: R.Converted, rate: real, exact: real, e: real)
    requires R.Correct(context, epsilon) && 0.0 < epsilon <= 0.1 && e == 4.0 * epsilon && c != target
    requires r == R.Convert(context, rates, m, c, target) && r.Amount?
    requires R.CanConvert(rates, c, target) && rate == R.ExactRate(rates, c, target) && exact == m as real * rate
    ensures R.Close(r.minorUnits, exact, e)
  {
    R.ConvertError(context, epsilon, rates, m, c, target, exact, r);
  }

  lemma StoredRateConvertsWell(context: R.Context, epsilon: real, rates: R.RateTable, target: Currency, s: Snapshot, m: nat, c: Currency, e: real)
    requires R.Correct(context, epsilon) && 0.0 < epsilon <= 0.1 && e == 4.0 * epsilon && s == AtRates(context, rates, target)
    ensures ConvertsWell(s, m, c, e)
  {
    ConvertAnswersWell(context, epsilon, rates, target, m, c, s.convert(m, c), s.exactRate(c), e);
  }

  /** Stored rates convert well, whatever they are. */
  lemma StoredRatesConvertWell(context: R.Context, epsilon: real, rates: R.RateTable, target: Currency, s: Snapshot, e: real)
    requires R.Correct(context, epsilon) && 0.0 < epsilon <= 0.1 && e == 4.0 * epsilon && s == AtRates(context, rates, target)
    ensures Sound(s, e)
  {
    forall m: nat, c: Currency ensures ConvertsWell(s, m, c, e) {
      StoredRateConvertsWell(context, epsilon, rates, target, s, m, c, e);
    }
  }

  predicate InOrder(s: Snapshot, m: nat, n: nat, c: Currency) {
    s.convert(n, c).Amount? ==> s.convert(m, c).Amount? && s.convert(m, c).minorUnits <= s.convert(n, c).minorUnits
  }

  ghost predicate Ordered(s: Snapshot) {
    forall m, n, c | m <= n :: InOrder(s, m, n, c)
  }

  /** Conversion at stored rates with 28-digit decimals keeps order, and drifts by at most one part in 5 * 10^26. */
  lemma DecimalSnapshots(rates: R.RateTable, target: Currency, s: Snapshot, e: real)
    requires s == AtRates(R.DefaultContext(), rates, target) && e == R.Drift()
    ensures Sound(s, e) && Ordered(s)
  {
    var context, epsilon := R.DefaultContext(), Epsilon();
    R.DefaultContextIsCorrect(context, epsilon);
    R.EpsilonIsSmall(epsilon);
    StoredRatesConvertWell(context, epsilon, rates, target, s, e);
    forall m: nat, n: nat, c: Currency | m <= n ensures InOrder(s, m, n, c) {
      StoredRateInOrder(context, epsilon, rates, target, m, n, c, s.convert(m, c), s.convert(n, c));
    }
  }

  lemma StoredRateInOrder(context: R.Context, epsilon: real, rates: R.RateTable, target: Currency, m: nat, n: nat, c: Currency, x: R.Converted, y: R.Converted)
    requires R.Correct(context, epsilon) && m <= n
    requires x == R.Convert(context, rates, m, c, target) && y == R.Convert(context, rates, n, c, target)
    ensures y.Amount? ==> x.Amount? && x.minorUnits <= y.minorUnits
  {
    if y.Amount? {
      R.ConvertIsMonotone(context, epsilon, rates, m, n, c, target);
    }
  }

  function ConvertibleOnly<K>(s: Snapshot, groups: seq<Group<K>>): seq<Group<K>> {
    if groups == [] then []
    else (if Convertible(s, groups[0].currency) then [groups[0]] else []) + ConvertibleOnly(s, groups[1..])
  }

  /** None of the conversions exceeds the digits of the arithmetic. */
  predicate AllFit<K(==)>(s: Snapshot, groups: seq<Group<K>>) {
    forall g | g in groups :: ConvertedAt(s, g.total, g.currency).Amount?
  }

  function ConvertedSum<K(==)>(s: Snapshot, groups: seq<Group<K>>): int
    requires AllFit(s, groups)
  {
    if groups == [] then 0
    else
      assert groups[0] in groups;
      ConvertedAt(s, groups[0].total, groups[0].currency).minorUnits + ConvertedSum(s, groups[1..])
  }

  /** The groups that are not in the target currency already. */
  function Foreign<K>(s: Snapshot, groups: seq<Group<K>>): nat {
    if groups == [] then 0 else (if groups[0].currency == s.target then 0 else 1) + Foreign(s, groups[1..])
  }

  // --- the distance between totals that were converted group by group ---

  /** What an amount is exactly worth, as a rational number; nothing without a rate. */
  function ExactWorth<K>(s: Snapshot): (Currency, K, nat) -> real {
    (c, k, m) => if Convertible(s, c) then m as real * s.exactRate(c).value else 0.0
  }

  function ForeignWorth<K>(s: Snapshot): (Currency, K, nat) -> real {
    (c, k, m) => if Convertible(s, c) && c != s.target then m as real * s.exactRate(c).value else 0.0
  }

  lemma SumTimes(m: nat, n: nat, total: nat, rate: real)
    requires total == m + n
    ensures total as real * rate == m as real * rate + n as real * rate
  {
  }

  lemma WorthIsAdditive<K(!new)>(s: Snapshot, exact: (Currency, K, nat) -> real, foreign: (Currency, K, nat) -> real)
    requires exact == ExactWorth(s) && foreign == ForeignWorth(s)
    ensures Additive(exact) && Additive(foreign)
  {
    forall c: Currency, k: K ensures exact(c, k, 0) == 0.0 && foreign(c, k, 0) == 0.0 {
    }
    forall c: Currency, k: K, m: nat, n: nat ensures Adds(exact, c, k, m, n) && Adds(foreign, c, k, m, n) {
      if Convertible(s, c) {
        SumTimes(m, n, m + n, s.exactRate(c).value);
      }
    }
  }

  /** `n` is within half a minor unit per conversion, and a relative error of `e` on what was converted, of `exact`. */
  predicate Within(n: int, exact: real, foreign: real, conversions: nat, e: real) {
    exact - e * foreign - 0.5 * conversions as real <= n as real <= exact + e * foreign + 0.5 * conversions as real
  }

  lemma WithinAdds(n: int, x: real, f: real, c: nat, n': int, x': real, f': real, c': nat, e: real, sum: int, sumX: real, sumF: real, sumC: nat)
    requires Within(n, x, f, c, e) && Within(n', x', f', c', e)
    requires sum == n + n' && sumX == x + x' && sumF == f + f' && sumC == c + c'
    ensures Within(sum, sumX, sumF, sumC, e)
  {
    assert e * sumF == e * f + e * f';
  }

  lemma OneConversion(s: Snapshot, e: real, m: nat, c: Currency, exact: real, foreign: real)
    requires Sound(s, e) && Convertible(s, c) && ConvertedAt(s, m, c).Amount?
    requires exact == m as real * s.exactRate(c).value && foreign == (if c == s.target then 0.0 else exact)
    ensures Within(ConvertedAt(s, m, c).minorUnits, exact, foreign, if c == s.target then 0 else 1, e)
  {
    assert ConvertsWell(s, m, c, e);
  }

  lemma {:induction false} ConvertedNear<K>(s: Snapshot, e: real, groups: seq<Group<K>>,
      exact: (Currency, K, nat) -> real, foreign: (Currency, K, nat) -> real)
    requires Sound(s, e)
    requires exact == ExactWorth(s) && foreign == ForeignWorth(s)
    requires AllFit(s, groups) && forall g | g in groups :: Convertible(s, g.currency)
    ensures Within(ConvertedSum(s, groups), GroupSum(groups, exact, MinorUnits), GroupSum(groups, foreign, MinorUnits),
                   Foreign(s, groups), e)
  {
    if groups != [] {
      var g := groups[0];
      assert g in groups;
      ConvertedNear(s, e, groups[1..], exact, foreign);
      OneConversion(s, e, g.total, g.currency, exact(g.currency, g.key, g.total), foreign(g.currency, g.key, g.total));
      WithinAdds(ConvertedAt(s, g.total, g.currency).minorUnits, exact(g.currency, g.key, g.total), foreign(g.currency, g.key, g.total),
                 if g.currency == s.target then 0 else 1,
                 ConvertedSum(s, groups[1..]), GroupSum(groups[1..], exact, MinorUnits), GroupSum(groups[1..], foreign, MinorUnits),
                 Foreign(s, groups[1..]), e,
                 ConvertedSum(s, groups), GroupSum(groups, exact, MinorUnits), GroupSum(groups, foreign, MinorUnits), Foreign(s, groups));
    }
  }

  /** Leaving out groups without a rate changes no exact worth. */
  lemma {:induction false} ConvertibleOnlyKeepsWorth<K>(s: Snapshot, groups: seq<Group<K>>,
      exact: (Currency, K, nat) -> real, foreign: (Currency, K, nat) -> real)
    requires exact == ExactWorth(s) && foreign == ForeignWorth(s)
    ensures GroupSum(ConvertibleOnly(s, groups), exact, MinorUnits) == GroupSum(groups, exact, MinorUnits)
    ensures GroupSum(ConvertibleOnly(s, groups), foreign, MinorUnits) == GroupSum(groups, foreign, MinorUnits)
    ensures forall g | g in ConvertibleOnly(s, groups) :: Convertible(s, g.currency)
  {
    if groups != [] {
      ConvertibleOnlyKeepsWorth(s, groups[1..], exact, foreign);
      if Convertible(s, groups[0].currency) {
        assert ConvertibleOnly(s, groups)[1..] == ConvertibleOnly(s, groups[1..]);
      } else {
        assert ConvertibleOnly(s, groups) == ConvertibleOnly(s, groups[1..]);
      }
    }
  }

  /** A grouping's converted sum, measured against the exact worth of the rows it groups. */
  lemma GroupingNear<K(!new)>(s: Snapshot, e: real, rows: seq<Expense>, key: Expense -> K, groups: seq<Group<K>>, kept: seq<Group<K>>)
    requires Sound(s, e)
    requires IsGroupBy(rows, key, groups) && kept == ConvertibleOnly(s, groups) && AllFit(s, kept)
    ensures Within(ConvertedSum(s, kept), RowsWorth(s, rows), RowsForeignWorth(s, rows), Foreign(s, kept), e)
  {
    var exact: (Currency, K, nat) -> real := ExactWorth(s);
    var foreign: (Currency, K, nat) -> real := ForeignWorth(s);
    WorthIsAdditive(s, exact, foreign);
    ConvertibleOnlyKeepsWorth(s, groups, exact, foreign);
    ConvertedNear(s, e, kept, exact, foreign);
    GroupingConserves(rows, groups, key, exact, MinorUnits);
    GroupingConserves(rows, groups, key, foreign, MinorUnits);
    WorthIgnoresKeys(s, rows, key, exact, foreign);
  }

  /** The exact worth of every convertible row, and of those in another currency. */
  function RowsWorth(s: Snapshot, rows: seq<Expense>): real {
    RowSum(rows, (e: Expense) => (), ExactWorth(s), MinorUnits)
  }

  function RowsForeignWorth(s: Snapshot, rows: seq<Expense>): real {
    RowSum(rows, (e: Expense) => (), ForeignWorth(s), MinorUnits)
  }

  lemma {:induction false} WorthIgnoresKeys<K>(s: Snapshot, rows: seq<Expense>, key: Expense -> K,
      exact: (Currency, K, nat) -> real, foreign: (Currency, K, nat) -> real)
    requires exact == ExactWorth(s) && foreign == ForeignWorth(s)
    ensures RowSum(rows, key, exact, MinorUnits) == RowsWorth(s, rows)
    ensures RowSum(rows, key, foreign, MinorUnits) == RowsForeignWorth(s, rows)
  {
    if rows != [] {
      WorthIgnoresKeys(s, rows[1..], key, exact, foreign);
    }
  }

  /** Two sums of converted groups differ by at most half a minor unit per conversion on either side, plus the drift. */
  predicate Apart(a: int, b: int, conversions: nat, foreign: real, e: real) {
    (a - b) as real <= 0.5 * conversions as real + 2.0 * e * foreign && (b - a) as real <= 0.5 * conversions as real + 2.0 * e * foreign
  }

  /**
   * The converted grand total and any converted breakdown of the same expenses (categories, merchants,
   * or currency buckets) agree up to their own roundings: half a minor unit for each group converted
   * from another currency on both sides, and twice the drift of what those groups are worth.
   */
  lemma BreakdownsAgree<J(!new), K(!new)>(s: Snapshot, e: real, rows: seq<Expense>,
      key: Expense -> J, groups: seq<Group<J>>, otherKey: Expense -> K, others: seq<Group<K>>)
    requires Sound(s, e)
    requires IsGroupBy(rows, key, groups) && IsGroupBy(rows, otherKey, others)
    requires AllFit(s, ConvertibleOnly(s, groups)) && AllFit(s, ConvertibleOnly(s, others))
    ensures Apart(ConvertedSum(s, ConvertibleOnly(s, groups)), ConvertedSum(s, ConvertibleOnly(s, others)),
                  Foreign(s, ConvertibleOnly(s, groups)) + Foreign(s, ConvertibleOnly(s, others)),
                  RowsForeignWorth(s, rows), e)
  {
    GroupingNear(s, e, rows, key, groups, ConvertibleOnly(s, groups));
    GroupingNear(s, e, rows, otherKey, others, ConvertibleOnly(s, others));
  }

  function CountIfConvertible<K>(s: Snapshot): (Currency, K, nat) -> real {
    (c, k, m) => if Convertible(s, c) then m as real else 0.0
  }

  lemma {:induction false} CountsKept<K>(s: Snapshot, groups: seq<Group<K>>, f: (Currency, K, nat) -> real)
    requires f == CountIfConvertible(s)
    ensures ColumnSum(ConvertibleOnly(s, groups), Column.Expenses) as real == GroupSum(groups, f, Column.Expenses)
  {
    if groups != [] {
      CountsKept(s, groups[1..], f);
      if Convertible(s, groups[0].currency) {
        assert ConvertibleOnly(s, groups)[1..] == ConvertibleOnly(s, groups[1..]);
      } else {
        assert ConvertibleOnly(s, groups) == ConvertibleOnly(s, groups[1..]);
      }
    }
  }

  function ConvertibleRows(s: Snapshot, rows: seq<Expense>): nat {
    if rows == [] then 0 else (if Convertible(s, rows[0].money.currency) then 1 else 0) + ConvertibleRows(s, rows[1..])
  }

  lemma {:induction false} RowsCounted<K>(s: Snapshot, rows: seq<Expense>, key: Expense -> K, f: (Currency, K, nat) -> real)
    requires f == CountIfConvertible(s)
    ensures RowSum(rows, key, f, Column.Expenses) == ConvertibleRows(s, rows) as real
  {
    if rows != [] {
      RowsCounted(s, rows[1..], key, f);
    }
  }

  /** Counts agree exactly: every breakdown counts each convertible expense once. */
  lemma CountsAgree<K(!new)>(s: Snapshot, rows: seq<Expense>, key: Expense -> K, groups: seq<Group<K>>)
    requires IsGroupBy(rows, key, groups)
    ensures ColumnSum(ConvertibleOnly(s, groups), Column.Expenses) == ConvertibleRows(s, rows)
  {
    var f: (Currency, K, nat) -> real := CountIfConvertible(s);
    CountsKept(s, groups, f);
    RowsCounted(s, rows, key, f);
    GroupingConserves(rows, groups, key, f, Column.Expenses);
  }

  // --- the dashboard's own loops ---

  /** Converts, and remembers which currencies' rates it used. */
  class Converter {
    const snapshot: Snapshot
    var used: set<Currency>

    constructor (snapshot: Snapshot)
      ensures this.snapshot == snapshot && used == {}
    {
      this.snapshot := snapshot;
      used := {};
    }

    /** Anything but an amount is an error that ends the dashboard. */
    method Convert(minorUnits: nat, c: Currency) returns (converted: R.Converted)
      modifies this
      ensures converted == ConvertedAt(snapshot, minorUnits, c)
      ensures used == old(used) + if converted.Amount? && c != snapshot.target then {c, snapshot.target} else {}
    {
      converted := ConvertedAt(snapshot, minorUnits, c);
      if converted.Amount? && c != snapshot.target {
        used := used + {c, snapshot.target};
      }
    }
  }

  /** One line of a converted breakdown. */
  datatype Line<K> = Line(key: K, total: int, count: nat)

  function LinePart<K>(l: Line<K>, column: Column): int {
    if column.MinorUnits? then l.total else l.count
  }

  function LinesSum<K>(lines: seq<Line<K>>, column: Column): int {
    if lines == [] then 0 else LinePart(lines[0], column) + LinesSum(lines[1..], column)
  }

  function Piece<K>(s: Snapshot, g: Group<K>, column: Column): int
    requires ConvertedAt(s, g.total, g.currency).Amount?
  {
    if column.MinorUnits? then ConvertedAt(s, g.total, g.currency).minorUnits else g.count
  }

  /** The column over the groups with one key, converted group by group. */
  function KeySum<K(==)>(s: Snapshot, groups: seq<Group<K>>, k: K, column: Column): int
    requires AllFit(s, groups)
  {
    if groups == [] then 0
    else
      assert groups[0] in groups;
      (if groups[0].key == k then Piece(s, groups[0], column) else 0) + KeySum(s, groups[1..], k, column)
  }

  function PieceSum<K(==)>(s: Snapshot, groups: seq<Group<K>>, column: Column): int
    requires AllFit(s, groups)
  {
    if groups == [] then 0
    else
      assert groups[0] in groups;
      Piece(s, groups[0], column) + PieceSum(s, groups[1..], column)
  }

  lemma {:induction false} PieceSums<K>(s: Snapshot, groups: seq<Group<K>>)
    requires AllFit(s, groups)
    ensures PieceSum(s, groups, MinorUnits) == ConvertedSum(s, groups)
    ensures PieceSum(s, groups, Column.Expenses) == ColumnSum(groups, Column.Expenses)
  {
    if groups != [] {
      PieceSums(s, groups[1..]);
    }
  }

  lemma {:induction false} SumsAppend<K>(s: Snapshot, groups: seq<Group<K>>, g: Group<K>, k: K, column: Column)
    requires AllFit(s, groups) && AllFit(s, [g])
    ensures AllFit(s, groups + [g])
    ensures KeySum(s, groups + [g], k, column) == KeySum(s, groups, k, column) + KeySum(s, [g], k, column)
    ensures PieceSum(s, groups + [g], column) == PieceSum(s, groups, column) + PieceSum(s, [g], column)
  {
    if groups == [] {
      assert groups + [g] == [g];
    } else {
      SumsAppend(s, groups[1..], g, k, column);
      assert (groups + [g])[1..] == groups[1..] + [g];
    }
  }

  function InListOrder<K(==)>(order: seq<K>, lines: map<K, Line<K>>): seq<Line<K>>
    requires forall k | k in order :: k in lines
  {
    seq(|order|, i requires 0 <= i < |order| => lines[order[i]])
  }

  ghost predicate NoRepeats<K>(order: seq<K>) {
    forall i, j | 0 <= i < j < |order| :: order[i] != order[j]
  }

  /** Replacing one line changes the sum by the difference. */
  lemma {:induction false} ReplaceLine<K>(order: seq<K>, lines: map<K, Line<K>>, k: K, l: Line<K>, column: Column)
    requires NoRepeats(order) && (forall x | x in order :: x in lines) && k in lines
    ensures LinesSum(InListOrder(order, lines[k := l]), column)
         == LinesSum(InListOrder(order, lines), column) + if k in order then LinePart(l, column) - LinePart(lines[k], column) else 0
  {
    if order != [] {
      ReplaceLine(order[1..], lines, k, l, column);
      assert InListOrder(order, lines)[1..] == InListOrder(order[1..], lines);
      assert InListOrder(order, lines[k := l])[1..] == InListOrder(order[1..], lines[k := l]);
      assert k in order <==> k == order[0] || k in order[1..];
    }
  }

  lemma {:induction false} AppendLine<K>(order: seq<K>, lines: map<K, Line<K>>, k: K, l: Line<K>, column: Column)
    requires NoRepeats(order) && (forall x | x in order :: x in lines) && k !in order
    ensures LinesSum(InListOrder(order + [k], lines[k := l]), column) == LinesSum(InListOrder(order, lines), column) + LinePart(l, column)
  {
    if order == [] {
      assert InListOrder(order + [k], lines[k := l]) == [l];
      assert [l][1..] == [];
    } else {
      AppendLine(order[1..], lines, k, l, column);
      assert (order + [k])[1..] == order[1..] + [k];
      assert InListOrder(order, lines)[1..] == InListOrder(order[1..], lines);
      assert InListOrder(order + [k], lines[k := l])[1..] == InListOrder((order + [k])[1..], lines[k := l]);
    }
  }

  ghost predicate HasKey<K>(groups: seq<Group<K>>, k: K) {
    exists i :: 0 <= i < |groups| && groups[i].key == k
  }

  /** A line holds its key's column. */
  ghost predicate LineHolds<K>(s: Snapshot, groups: seq<Group<K>>, k: K, l: Line<K>)
    requires AllFit(s, groups)
  {
    l.key == k && l.total == KeySum(s, groups, k, MinorUnits) && l.count == KeySum(s, groups, k, Column.Expenses)
  }

  ghost predicate KeysListed<K(!new)>(groups: seq<Group<K>>, order: seq<K>, lines: map<K, Line<K>>) {
    NoRepeats(order) && forall k :: (k in order <==> k in lines) && (k in lines <==> HasKey(groups, k))
  }

  /** The lines so far: one per key met, in the order met. */
  ghost predicate LinesOf<K(!new)>(s: Snapshot, done: seq<Group<K>>, order: seq<K>, lines: map<K, Line<K>>) {
    && AllFit(s, done) && KeysListed(done, order, lines)
    && (forall k | k in lines :: LineHolds(s, done, k, lines[k]))
    && (forall column :: LinesSum(InListOrder(order, lines), column) == PieceSum(s, done, column))
  }

  /** Converts each group once and adds it to the line of its key; a failed conversion ends it. */
  method ConvertedLines<K(!new, ==)>(converter: Converter, totals: seq<Group<K>>) returns (r: Result<seq<Line<K>>>)
    modifies converter
    ensures r.Accepted? <==> AllFit(converter.snapshot, totals)
    ensures r.Accepted? ==> exists order, lines :: LinesOf(converter.snapshot, totals, order, lines) && r.value == InListOrder(order, lines)
  {
    var s := converter.snapshot;
    var order: seq<K> := [];
    var lines: map<K, Line<K>> := map[];
    for i := 0 to |totals|
      invariant converter.snapshot == s && LinesOf(s, totals[..i], order, lines)
    {
      var g := totals[i];
      assert g in totals;
      var converted := converter.Convert(g.total, g.currency);
      if !converted.Amount? {
        return Rejected;
      }
      assert totals[..i + 1] == totals[..i] + [g];
      var previous := if g.key in lines then lines[g.key] else Line(g.key, 0, 0);
      var line := Line(g.key, converted.minorUnits + previous.total, g.count + previous.count);
      AddToLine(s, totals[..i], order, lines, g, line);
      if g.key !in lines {
        order := order + [g.key];
      }
      lines := lines[g.key := line];
    }
    assert totals[..|totals|] == totals;
    return Accepted(InListOrder(order, lines));
  }

  function AddedTo<K(==)>(lines: map<K, Line<K>>, k: K): Line<K> {
    if k in lines then lines[k] else Line(k, 0, 0)
  }

  lemma AddToLine<K(!new)>(s: Snapshot, done: seq<Group<K>>, order: seq<K>, lines: map<K, Line<K>>, g: Group<K>, line: Line<K>)
    requires LinesOf(s, done, order, lines) && ConvertedAt(s, g.total, g.currency).Amount?
    requires line == Line(g.key, ConvertedAt(s, g.total, g.currency).minorUnits + AddedTo(lines, g.key).total, g.count + AddedTo(lines, g.key).count)
    ensures LinesOf(s, done + [g], if g.key in lines then order else order + [g.key], lines[g.key := line])
  {
    KeysGrow(done, order, lines, g, line);
    assert AllFit(s, done + [g]);
    var lines' := lines[g.key := line];
    forall k | k in lines' ensures LineHolds(s, done + [g], k, lines'[k]) {
      LineStillHolds(s, done, lines, g, line, k);
    }
    var order' := if g.key in lines then order else order + [g.key];
    forall column ensures LinesSum(InListOrder(order', lines[g.key := line]), column) == PieceSum(s, done + [g], column) {
      SumsGrow(s, done, g, g.key, column);
      if g.key in lines {
        ReplaceLine(order, lines, g.key, line, column);
      } else {
        AppendLine(order, lines, g.key, line, column);
      }
      assert LinePart(line, column) == LinePart(AddedTo(lines, g.key), column) + Piece(s, g, column);
    }
  }

  lemma SumsGrow<K>(s: Snapshot, done: seq<Group<K>>, g: Group<K>, k: K, column: Column)
    requires AllFit(s, done) && ConvertedAt(s, g.total, g.currency).Amount?
    ensures AllFit(s, done + [g])
    ensures KeySum(s, done + [g], k, column) == KeySum(s, done, k, column) + if g.key == k then Piece(s, g, column) else 0
    ensures PieceSum(s, done + [g], column) == PieceSum(s, done, column) + Piece(s, g, column)
  {
    SumsAppend(s, done, g, k, column);
    assert [g][1..] == [];
  }

  lemma LineStillHolds<K(!new)>(s: Snapshot, done: seq<Group<K>>, lines: map<K, Line<K>>, g: Group<K>, line: Line<K>, k: K)
    requires AllFit(s, done) && ConvertedAt(s, g.total, g.currency).Amount?
    requires g.key in lines ==> LineHolds(s, done, g.key, lines[g.key])
    requires g.key !in lines ==> !HasKey(done, g.key)
    requires line == Line(g.key, ConvertedAt(s, g.total, g.currency).minorUnits + AddedTo(lines, g.key).total, g.count + AddedTo(lines, g.key).count)
    requires k == g.key || (k in lines && LineHolds(s, done, k, lines[k]))
    ensures AllFit(s, done + [g]) && LineHolds(s, done + [g], k, lines[g.key := line][k])
  {
    SumsGrow(s, done, g, k, MinorUnits);
    SumsGrow(s, done, g, k, Column.Expenses);
    if g.key !in lines {
      NoSuchKey(s, done, g.key, MinorUnits);
      NoSuchKey(s, done, g.key, Column.Expenses);
    }
  }

  lemma KeysGrow<K(!new)>(done: seq<Group<K>>, order: seq<K>, lines: map<K, Line<K>>, g: Group<K>, line: Line<K>)
    requires KeysListed(done, order, lines)
    ensures KeysListed(done + [g], if g.key in lines then order else order + [g.key], lines[g.key := line])
  {
    forall k: K ensures HasKey(done + [g], k) <==> HasKey(done, k) || k == g.key {
      var now := done + [g];
      assert now[|done|] == g;
      if i :| 0 <= i < |done| && done[i].key == k {
        assert now[i].key == k;
      }
    }
  }

  lemma {:induction false} NoSuchKey<K>(s: Snapshot, groups: seq<Group<K>>, k: K, column: Column)
    requires AllFit(s, groups) && !HasKey(groups, k)
    ensures KeySum(s, groups, k, column) == 0
  {
    if groups != [] {
      assert groups[0].key != k;
      forall i | 0 <= i < |groups[1..]| ensures groups[1..][i].key != k {
        assert groups[1..][i] == groups[i + 1];
      }
      NoSuchKey(s, groups[1..], k, column);
    }
  }

  /** The lines conserve what was converted: their totals and counts are those of all groups. */
  lemma LinesConserve<K(!new)>(s: Snapshot, totals: seq<Group<K>>, order: seq<K>, lines: map<K, Line<K>>)
    requires LinesOf(s, totals, order, lines)
    ensures LinesSum(InListOrder(order, lines), MinorUnits) == ConvertedSum(s, totals)
    ensures LinesSum(InListOrder(order, lines), Column.Expenses) == ColumnSum(totals, Column.Expenses)
  {
    PieceSums(s, totals);
  }

  // --- the largest expense ---

  /** Later date, then later creation, then id. */
  predicate TieLe(a: Expense, b: Expense) {
    a.date < b.date || (a.date == b.date && (a.createdAt < b.createdAt || (a.createdAt == b.createdAt && a.id <= b.id)))
  }

  predicate LargerOrTied(amountA: int, a: Expense, amountB: int, b: Expense) {
    amountA < amountB || (amountA == amountB && TieLe(a, b))
  }

  /** The query for a currency's largest expense: greatest amount, ties to the later one. */
  ghost predicate IsLargest(rows: seq<Expense>, c: Currency, e: Expense) {
    && e in rows && e.money.currency == c
    && forall other | other in rows && other.money.currency == c :: LargerOrTied(other.money.minorUnits, other, e.money.minorUnits, e)
  }

  datatype Candidate = Candidate(converted: int, expense: Expense)

  /** The largest expense of a currency with a rate, converted. */
  ghost predicate IsCandidate(s: Snapshot, rows: seq<Expense>, x: Candidate) {
    && Convertible(s, x.expense.money.currency) && IsLargest(rows, x.expense.money.currency, x.expense)
    && ConvertedAt(s, x.expense.money.minorUnits, x.expense.money.currency) == R.Amount(x.converted)
  }

  ghost predicate HasCandidate(candidates: seq<Candidate>, c: Currency) {
    exists x :: x in candidates && x.expense.money.currency == c
  }

  /** One candidate per convertible currency that has expenses. */
  ghost predicate AreCandidates(s: Snapshot, rows: seq<Expense>, candidates: seq<Candidate>) {
    && (forall x | x in candidates :: IsCandidate(s, rows, x))
    && (forall c | Convertible(s, c) && (exists e :: e in rows && e.money.currency == c) :: HasCandidate(candidates, c))
  }

  ghost predicate IsBest(candidates: seq<Candidate>, best: Candidate) {
    best in candidates && forall x | x in candidates :: LargerOrTied(x.converted, x.expense, best.converted, best.expense)
  }

  /** The greatest candidate by converted amount, then as ties break. */
  method LargestCandidate(candidates: seq<Candidate>) returns (best: Option<Candidate>)
    ensures best.None? <==> candidates == []
    ensures best.Some? ==> IsBest(candidates, best.value)
  {
    best := None;
    for i := 0 to |candidates|
      invariant best.None? <==> i == 0
      invariant best.Some? ==> IsBest(candidates[..i], best.value)
    {
      if best.None? || LargerOrTied(best.value.converted, best.value.expense, candidates[i].converted, candidates[i].expense) {
        best := Some(candidates[i]);
      }
    }
  }

  /**
   * Converting only each currency's largest expense finds the largest converted amount of all
   * convertible expenses. Among candidates ties go to the later one; an expense that is not its
   * currency's largest can tie only by rounding to the same amount as its own currency's candidate.
   */
  lemma ChampionIsLargest(s: Snapshot, rows: seq<Expense>, candidates: seq<Candidate>, best: Candidate, e: Expense)
    requires Ordered(s) && AreCandidates(s, rows, candidates) && IsBest(candidates, best)
    requires e in rows && Convertible(s, e.money.currency)
    ensures ConvertedAt(s, e.money.minorUnits, e.money.currency).Amount?
    ensures ConvertedAt(s, e.money.minorUnits, e.money.currency).minorUnits <= best.converted
    ensures ConvertedAt(s, e.money.minorUnits, e.money.currency).minorUnits == best.converted ==>
              exists x :: x in candidates && x.expense.money.currency == e.money.currency && x.converted == best.converted && TieLe(x.expense, best.expense)
  {
    assert HasCandidate(candidates, e.money.currency);
    var x :| x in candidates && x.expense.money.currency == e.money.currency;
    assert IsCandidate(s, rows, x);
    CandidateIsLargest(s, rows, x, e);
  }

  lemma CandidateIsLargest(s: Snapshot, rows: seq<Expense>, x: Candidate, e: Expense)
    requires Ordered(s) && IsCandidate(s, rows, x) && e in rows && e.money.currency == x.expense.money.currency
    ensures ConvertedAt(s, e.money.minorUnits, e.money.currency).Amount?
    ensures ConvertedAt(s, e.money.minorUnits, e.money.currency).minorUnits <= x.converted
  {
    assert InOrder(s, e.money.minorUnits, x.expense.money.minorUnits, e.money.currency);
  }

  /** The queries' answers: the largest expense of each convertible currency, if it has any. */
  ghost predicate AreLargest(s: Snapshot, rows: seq<Expense>, answers: seq<Option<Expense>>) {
    && (forall i | 0 <= i < |answers| && answers[i].Some? ::
          Convertible(s, answers[i].value.money.currency) && IsLargest(rows, answers[i].value.money.currency, answers[i].value))
    && (forall c | Convertible(s, c) && (exists e :: e in rows && e.money.currency == c) :: IsAnswered(answers, c))
  }

  /** Every currency's largest expense converts. */
  ghost predicate AnswersFit(s: Snapshot, answers: seq<Option<Expense>>) {
    forall i | 0 <= i < |answers| && answers[i].Some? :: ConvertedAt(s, answers[i].value.money.minorUnits, answers[i].value.money.currency).Amount?
  }

  ghost predicate IsAnswered(answers: seq<Option<Expense>>, c: Currency) {
    exists i :: 0 <= i < |answers| && answers[i].Some? && answers[i].value.money.currency == c
  }

  /** Convert each currency's largest expense, and take the maximum; a failed conversion ends it. */
  method ConvertedLargest(converter: Converter, answers: seq<Option<Expense>>, ghost rows: seq<Expense>)
      returns (r: Result<Option<Candidate>>, ghost candidates: seq<Candidate>)
    requires AreLargest(converter.snapshot, rows, answers)
    modifies converter
    ensures r.Accepted? <==> AnswersFit(converter.snapshot, answers)
    ensures r.Accepted? ==> AreCandidates(converter.snapshot, rows, candidates)
    ensures r.Accepted? ==> (candidates == [] <==> forall i | 0 <= i < |answers| :: answers[i].None?)
    ensures r.Accepted? ==> if candidates == [] then r.value.None? else r.value.Some? && IsBest(candidates, r.value.value)
  {
    var found: seq<Candidate> := [];
    candidates := [];
    for i := 0 to |answers|
      invariant forall x | x in found :: IsCandidate(converter.snapshot, rows, x)
      invariant forall c | IsAnswered(answers[..i], c) :: HasCandidate(found, c)
      invariant AnswersFit(converter.snapshot, answers[..i])
      invariant found == [] <==> forall k | 0 <= k < i :: answers[k].None?
    {
      ghost var before := found;
      if answers[i].Some? {
        var e := answers[i].value;
        var converted := converter.Convert(e.money.minorUnits, e.money.currency);
        if !converted.Amount? {
          return Rejected, [];
        }
        found := found + [Candidate(converted.minorUnits, e)];
        assert found[|before|].expense == e;
      }
      StillAnswered(answers, i, before, found);
    }
    assert answers[..|answers|] == answers;
    var best := LargestCandidate(found);
    return Accepted(best), found;
  }

  lemma StillAnswered(answers: seq<Option<Expense>>, i: nat, before: seq<Candidate>, found: seq<Candidate>)
    requires i < |answers| && before <= found && forall c | IsAnswered(answers[..i], c) :: HasCandidate(before, c)
    requires answers[i].Some? ==> HasCandidate(found, answers[i].value.money.currency)
    ensures forall c | IsAnswered(answers[..i + 1], c) :: HasCandidate(found, c)
  {
    forall c | IsAnswered(answers[..i + 1], c) ensures HasCandidate(found, c) {
      var j :| 0 <= j < i + 1 && answers[..i + 1][j].Some? && answers[..i + 1][j].value.money.currency == c;
      if j < i {
        assert answers[..i][j] == answers[j];
        assert HasCandidate(before, c);
        var x :| x in before && x.expense.money.currency == c;
        assert x in found;
      }
    }
  }
}
