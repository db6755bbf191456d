/** The group-by totals the dashboard reads, over the expenses a query selects. */
module Aggregates {
  import opened Amounts
  import opened Expenses

  /** One row of a GROUP BY currency and a further key. */
  datatype Group<K> = Group(currency: Currency, key: K, total: nat, count: nat)

  /** What a column adds up: minor units, or expenses. */
  datatype Column = MinorUnits | Expenses

  function Measured(e: Expense, column: Column): nat {
    if column.MinorUnits? then e.money.minorUnits else 1
  }

  function Part<K>(g: Group<K>, column: Column): nat {
    if column.MinorUnits? then g.total else g.count
  }

  predicate InGroup<K(==)>(g: Group<K>, key: Expense -> K, e: Expense) {
    e.money.currency == g.currency && key(e) == g.key
  }

  function Total<K(==)>(rows: seq<Expense>, g: Group<K>, key: Expense -> K, column: Column): nat {
    if rows == [] then 0
    else (if InGroup(g, key, rows[0]) then Measured(rows[0], column) else 0) + Total(rows[1..], g, key, column)
  }

  predicate SameGroup<K(==)>(g: Group<K>, h: Group<K>) {
    g.currency == h.currency && g.key == h.key
  }

  ghost predicate Distinct<K>(groups: seq<Group<K>>) {
    forall i, j | 0 <= i < j < |groups| :: !SameGroup(groups[i], groups[j])
  }

  ghost predicate Totalled<K>(rows: seq<Expense>, key: Expense -> K, groups: seq<Group<K>>) {
    forall g | g in groups :: g.total == Total(rows, g, key, MinorUnits) && g.count == Total(rows, g, key, Expenses) && g.count > 0
  }

  ghost predicate Covered<K>(groups: seq<Group<K>>, key: Expense -> K, e: Expense) {
    exists i :: 0 <= i < |groups| && InGroup(groups[i], key, e)
  }

  /** The answer to GROUP BY, in any order: one row per group that occurs, with its sum and count. */
  ghost predicate IsGroupBy<K>(rows: seq<Expense>, key: Expense -> K, groups: seq<Group<K>>) {
    Distinct(groups) && Totalled(rows, key, groups) && forall e | e in rows :: Covered(groups, key, e)
  }

  // --- what a grouping conserves ---

  /** A figure derived from a sum that adds up as the sum does. */
  ghost predicate Additive<K(!new)>(f: (Currency, K, nat) -> real) {
    && (forall c, k :: f(c, k, 0) == 0.0)
    && (forall c, k, m, n :: Adds(f, c, k, m, n))
  }

  predicate Adds<K>(f: (Currency, K, nat) -> real, c: Currency, k: K, m: nat, n: nat) {
    f(c, k, m + n) == f(c, k, m) + f(c, k, n)
  }

  function GroupSum<K>(groups: seq<Group<K>>, f: (Currency, K, nat) -> real, column: Column): real {
    if groups == [] then 0.0
    else f(groups[0].currency, groups[0].key, Part(groups[0], column)) + GroupSum(groups[1..], f, column)
  }

  function RowSum<K>(rows: seq<Expense>, key: Expense -> K, f: (Currency, K, nat) -> real, column: Column): real {
    if rows == [] then 0.0
    else f(rows[0].money.currency, key(rows[0]), Measured(rows[0], column)) + RowSum(rows[1..], key, f, column)
  }

  /** The same, over the rows of some groups only. */
  ghost function CoveredSum<K>(rows: seq<Expense>, groups: seq<Group<K>>, key: Expense -> K, f: (Currency, K, nat) -> real, column: Column): real {
    if rows == [] then 0.0
    else
      (if Covered(groups, key, rows[0]) then f(rows[0].money.currency, key(rows[0]), Measured(rows[0], column)) else 0.0)
      + CoveredSum(rows[1..], groups, key, f, column)
  }

  lemma {:induction false} OneGroup<K(!new)>(rows: seq<Expense>, g: Group<K>, key: Expense -> K, f: (Currency, K, nat) -> real, column: Column)
    requires Additive(f)
    ensures CoveredSum(rows, [g], key, f, column) == f(g.currency, g.key, Total(rows, g, key, column))
  {
    if rows != [] {
      OneGroup(rows[1..], g, key, f, column);
      assert Covered([g], key, rows[0]) <==> InGroup([g][0], key, rows[0]);
      assert Adds(f, g.currency, g.key, Measured(rows[0], column), Total(rows[1..], g, key, column));
    }
  }

  lemma {:induction false} GroupsAdd<K(!new)>(rows: seq<Expense>, groups: seq<Group<K>>, key: Expense -> K, f: (Currency, K, nat) -> real, column: Column)
    requires groups != [] && Distinct(groups)
    ensures CoveredSum(rows, groups, key, f, column)
         == CoveredSum(rows, [groups[0]], key, f, column) + CoveredSum(rows, groups[1..], key, f, column)
  {
    if rows != [] {
      GroupsAdd(rows[1..], groups, key, f, column);
      CoveredOnce(groups, key, rows[0]);
    }
  }

  lemma CoveredOnce<K>(groups: seq<Group<K>>, key: Expense -> K, e: Expense)
    requires groups != [] && Distinct(groups)
    ensures Covered(groups, key, e) <==> Covered([groups[0]], key, e) || Covered(groups[1..], key, e)
    ensures !(Covered([groups[0]], key, e) && Covered(groups[1..], key, e))
  {
    assert Covered([groups[0]], key, e) <==> InGroup([groups[0]][0], key, e);
    if i :| 0 <= i < |groups| && InGroup(groups[i], key, e) {
      assert i > 0 ==> groups[1..][i - 1] == groups[i];
    }
    if i :| 0 <= i < |groups[1..]| && InGroup(groups[1..][i], key, e) {
      assert groups[1..][i] == groups[i + 1];
      assert !SameGroup(groups[0], groups[i + 1]);
    }
  }

  lemma {:induction false} NothingCovered<K>(rows: seq<Expense>, key: Expense -> K, f: (Currency, K, nat) -> real, column: Column)
    ensures CoveredSum(rows, [], key, f, column) == 0.0
  {
    if rows != [] {
      NothingCovered(rows[1..], key, f, column);
    }
  }

  lemma {:induction false} GroupsSumTheirRows<K(!new)>(rows: seq<Expense>, groups: seq<Group<K>>, key: Expense -> K, f: (Currency, K, nat) -> real, column: Column)
    requires Additive(f) && Distinct(groups) && Totalled(rows, key, groups)
    ensures GroupSum(groups, f, column) == CoveredSum(rows, groups, key, f, column)
    decreases |groups|
  {
    if groups == [] {
      NothingCovered(rows, key, f, column);
    } else {
      GroupsSumTheirRows(rows, groups[1..], key, f, column);
      GroupsAdd(rows, groups, key, f, column);
      OneGroup(rows, groups[0], key, f, column);
      assert groups[0] in groups;
    }
  }

  lemma {:induction false} AllCovered<K>(rows: seq<Expense>, groups: seq<Group<K>>, key: Expense -> K, f: (Currency, K, nat) -> real, column: Column)
    requires forall e | e in rows :: Covered(groups, key, e)
    ensures CoveredSum(rows, groups, key, f, column) == RowSum(rows, key, f, column)
  {
    if rows != [] {
      assert rows[0] in rows;
      AllCovered(rows[1..], groups, key, f, column);
    }
  }

  /** However the rows are grouped, any additive figure over the groups is that figure over the rows. */
  lemma GroupingConserves<K(!new)>(rows: seq<Expense>, groups: seq<Group<K>>, key: Expense -> K, f: (Currency, K, nat) -> real, column: Column)
    requires Additive(f) && IsGroupBy(rows, key, groups)
    ensures GroupSum(groups, f, column) == RowSum(rows, key, f, column)
  {
    GroupsSumTheirRows(rows, groups, key, f, column);
    AllCovered(rows, groups, key, f, column);
  }

  // --- whole columns ---

  function ColumnSum<K>(groups: seq<Group<K>>, column: Column): nat {
    if groups == [] then 0 else Part(groups[0], column) + ColumnSum(groups[1..], column)
  }

  function RowsSum(rows: seq<Expense>, column: Column): nat {
    if rows == [] then 0 else Measured(rows[0], column) + RowsSum(rows[1..], column)
  }

  function Plain<K>(): (Currency, K, nat) -> real {
    (c, k, m) => m as real
  }

  lemma {:induction false} PlainGroups<K>(groups: seq<Group<K>>, column: Column)
    ensures GroupSum(groups, Plain<K>(), column) == ColumnSum(groups, column) as real
  {
    if groups != [] {
      PlainGroups(groups[1..], column);
    }
  }

  lemma {:induction false} PlainRows<K>(rows: seq<Expense>, key: Expense -> K, column: Column)
    ensures RowSum(rows, key, Plain<K>(), column) == RowsSum(rows, column) as real
  {
    if rows != [] {
      PlainRows(rows[1..], key, column);
    }
  }

  /** Totals and counts are conserved by every grouping. */
  lemma ColumnsConserved<K(!new)>(rows: seq<Expense>, groups: seq<Group<K>>, key: Expense -> K, column: Column)
    requires IsGroupBy(rows, key, groups)
    ensures ColumnSum(groups, column) == RowsSum(rows, column)
  {
    assert Additive(Plain<K>());
    GroupingConserves(rows, groups, key, Plain<K>(), column);
    PlainGroups(groups, column);
    PlainRows(rows, key, column);
  }
}
