/**
 Keyset pagination over a table that changes between pages. A page is described by what it holds;
 the query that computes it, and what a whole run of pages shows, are proved against that.
 */
module ExpenseHistory {
  import opened Wrappers
  import opened Amounts
  import opened CaptureDraft
  import opened Expenses

  const MAX_PAGE_SIZE: nat := 100

  type Table = map<Id, Expense>

  datatype Position = Position(date: Day, createdAt: Instant, id: Id)

  function KeyOf(e: Expense): Position {
    Position(e.date, e.createdAt, e.id)
  }

  predicate Below(a: Position, b: Position) {
    a.date < b.date || (a.date == b.date && (a.createdAt < b.createdAt || (a.createdAt == b.createdAt && a.id < b.id)))
  }

  /** Bounds are inclusive; empty sets mean "any". */
  datatype Filter = Filter(dateFrom: Option<Day>, dateTo: Option<Day>, categories: set<string>, currencies: set<Amounts.Currency>)

  predicate Matches(e: Expense, owner: Id, f: Filter) {
    && e.owner == owner && IsActive(e)
    && (f.dateFrom.Some? ==> f.dateFrom.value <= e.date)
    && (f.dateTo.Some? ==> e.date <= f.dateTo.value)
    && (f.categories != {} ==> e.category in f.categories)
    && (f.currencies != {} ==> e.money.currency in f.currencies)
  }

  datatype Page = Page(items: seq<Expense>, next: Option<Position>)

  ghost predicate Keyed(t: Table) {
    forall k | k in t :: t[k].id == k
  }

  predicate Holds(t: Table, e: Expense) {
    e.id in t && t[e.id] == e
  }

  /** A row the query for the page after `after` must show or leave for later. */
  predicate Wanted(t: Table, owner: Id, f: Filter, after: Option<Position>, e: Expense) {
    Holds(t, e) && Matches(e, owner, f) && (after.Some? ==> Below(KeyOf(e), after.value))
  }

  ghost predicate Descending(s: seq<Expense>) {
    forall i, j | 0 <= i < j < |s| :: Below(KeyOf(s[j]), KeyOf(s[i]))
  }

  /** The page after a position: the greatest wanted rows, in order, and where the next page starts. */
  ghost predicate IsPage(t: Table, owner: Id, f: Filter, limit: nat, after: Option<Position>, p: Page) {
    && Descending(p.items) && |p.items| <= limit
    && (forall e | e in p.items :: Wanted(t, owner, f, after, e))
    && (p.next.None? ==> forall k | k in t && Wanted(t, owner, f, after, t[k]) :: t[k] in p.items)
    && (p.next.Some? ==>
          && |p.items| == limit > 0 && p.next.value == KeyOf(p.items[limit - 1])
          && (forall k | k in t && Wanted(t, owner, f, after, t[k]) :: t[k] in p.items || Below(KeyOf(t[k]), p.next.value))
          && exists k :: k in t && Wanted(t, owner, f, after, t[k]) && Below(KeyOf(t[k]), p.next.value))
  }

  /** Where a page's rows lie, relative to the positions around it. */
  ghost predicate Bounded(p: Page, after: Option<Position>) {
    && Descending(p.items)
    && (after.Some? ==> forall e | e in p.items :: Below(KeyOf(e), after.value))
    && (p.next.Some? ==> p.items != [] && forall e | e in p.items :: KeyOf(e) == p.next.value || Below(p.next.value, KeyOf(e)))
  }

  lemma PageIsBounded(t: Table, owner: Id, f: Filter, limit: nat, after: Option<Position>, p: Page)
    requires IsPage(t, owner, f, limit, after, p)
    ensures Bounded(p, after)
  {
  }

  /** A wanted row is on the page or left for the next one. */
  lemma PageCovers(t: Table, owner: Id, f: Filter, limit: nat, after: Option<Position>, p: Page, e: Expense)
    requires IsPage(t, owner, f, limit, after, p) && Wanted(t, owner, f, after, e)
    ensures e in p.items || (p.next.Some? && Below(KeyOf(e), p.next.value))
  {
    assert e.id in t && t[e.id] == e;
  }

  // --- the query ---

  lemma BelowIsTotal(a: Position, b: Position)
    ensures a == b || Below(a, b) || Below(b, a)
  {
  }

  /** The greatest of some rows with distinct ids. */
  method Greatest(rows: set<Expense>) returns (top: Expense)
    requires rows != {} && forall a, b | a in rows && b in rows && a.id == b.id :: a == b
    ensures top in rows && forall e | e in rows && e != top :: Below(KeyOf(e), KeyOf(top))
  {
    top :| top in rows;
    var rest := rows - {top};
    while rest != {}
      invariant rest <= rows && top in rows && top !in rest
      invariant forall e | e in rows && e !in rest && e != top :: Below(KeyOf(e), KeyOf(top))
      decreases rest
    {
      var e :| e in rest;
      BelowIsTotal(KeyOf(e), KeyOf(top));
      rest := rest - {e};
      if Below(KeyOf(top), KeyOf(e)) {
        top := e;
      }
    }
  }

  /** ORDER BY key DESC LIMIT n. */
  method TopRows(rows: set<Expense>, n: nat) returns (records: seq<Expense>)
    requires forall a, b | a in rows && b in rows && a.id == b.id :: a == b
    ensures Descending(records) && |records| <= n
    ensures forall e | e in records :: e in rows
    ensures forall e | e in rows && e !in records :: |records| == n && (n > 0 ==> Below(KeyOf(e), KeyOf(records[n - 1])))
  {
    records := [];
    var rest := rows;
    while rest != {} && |records| < n
      invariant |records| <= n && Descending(records) && rest <= rows
      invariant forall e | e in records :: e in rows
      invariant forall e | e in rows && e !in rest :: e in records
      invariant forall e, r | e in rest && r in records :: Below(KeyOf(e), KeyOf(r))
      decreases rest
    {
      var top := Greatest(rest);
      records := records + [top];
      rest := rest - {top};
    }
  }

  /** The WHERE clause, added to condition by condition. */
  method Select(t: Table, owner: Id, f: Filter, after: Option<Position>) returns (statement: set<Expense>)
    requires Keyed(t)
    ensures forall e :: e in statement <==> Wanted(t, owner, f, after, e)
  {
    statement := SelectPeriod(t, owner, f);
    if f.categories != {} {
      statement := set e | e in statement && e.category in f.categories;
    }
    if f.currencies != {} {
      statement := set e | e in statement && e.money.currency in f.currencies;
    }
    if after.Some? {
      statement := set e | e in statement && Below(KeyOf(e), after.value);
    }
  }

  /** The owner's active rows in the filter's period. */
  method SelectPeriod(t: Table, owner: Id, f: Filter) returns (statement: set<Expense>)
    requires Keyed(t)
    ensures forall e :: e in statement <==>
      (Holds(t, e) && e.owner == owner && IsActive(e)
       && (f.dateFrom.Some? ==> f.dateFrom.value <= e.date) && (f.dateTo.Some? ==> e.date <= f.dateTo.value))
  {
    statement := set k | k in t && t[k].owner == owner && IsActive(t[k]) :: t[k];
    if f.dateFrom.Some? {
      statement := set e | e in statement && f.dateFrom.value <= e.date;
    }
    if f.dateTo.Some? {
      statement := set e | e in statement && e.date <= f.dateTo.value;
    }
  }

  /** One page of an owner's active expenses; None when the limit is out of range. */
  method ListHistory(t: Table, owner: Id, f: Filter, limit: nat, after: Option<Position>) returns (page: Option<Page>)
    requires Keyed(t)
    ensures page.None? <==> !(1 <= limit <= MAX_PAGE_SIZE)
    ensures page.Some? ==> IsPage(t, owner, f, limit, after, page.value)
  {
    if !(1 <= limit <= MAX_PAGE_SIZE) {
      return None;
    }
    var statement := Select(t, owner, f, after);
    var records := TopRows(statement, limit + 1);
    if |records| > limit {
      SplitRecords(t, owner, f, limit, after, statement, records);
      return Some(Page(records[..limit], Some(KeyOf(records[limit - 1]))));
    }
    return Some(Page(records, None));
  }

  /** One record too many: the page is the first `limit`, and there is more below it. */
  lemma SplitRecords(t: Table, owner: Id, f: Filter, limit: nat, after: Option<Position>, rows: set<Expense>, records: seq<Expense>)
    requires 0 < limit && |records| == limit + 1 && Descending(records)
    requires forall e :: e in rows <==> Wanted(t, owner, f, after, e)
    requires forall e | e in records :: e in rows
    requires forall e | e in rows && e !in records :: Below(KeyOf(e), KeyOf(records[limit]))
    ensures IsPage(t, owner, f, limit, after, Page(records[..limit], Some(KeyOf(records[limit - 1]))))
  {
    var items, extra := records[..limit], records[limit];
    assert records == items + [extra] && extra in records;
    forall e | e in rows ensures e in items || Below(KeyOf(e), KeyOf(records[limit - 1])) {
    }
    assert extra.id in t && t[extra.id] == extra;
  }

  // --- runs of pages ---

  /** Pages read one after another, each from the table as it was then. */
  datatype Reading = NothingYet | Then(earlier: Reading, table: Table, limit: nat, page: Page)

  /** Where the next page starts. */
  function StartAfter(r: Reading): Option<Position> {
    if r.NothingYet? then None else r.page.next
  }

  ghost predicate IsReading(r: Reading, owner: Id, f: Filter) {
    r.Then? ==>
      && IsReading(r.earlier, owner, f)
      && (r.earlier.Then? ==> r.earlier.page.next.Some?)
      && Keyed(r.table) && IsPage(r.table, owner, f, r.limit, StartAfter(r.earlier), r.page)
  }

  function Shown(r: Reading): seq<Expense> {
    if r.NothingYet? then [] else Shown(r.earlier) + r.page.items
  }

  predicate Ended(r: Reading) {
    r.Then? && r.page.next.None?
  }

  ghost predicate DescendsTo(s: seq<Expense>, at: Option<Position>) {
    Descending(s) && (at.Some? ==> forall e | e in s :: KeyOf(e) == at.value || Below(at.value, KeyOf(e)))
  }

  lemma JoinDescends(before: seq<Expense>, at: Option<Position>, p: Page)
    requires DescendsTo(before, at) && Bounded(p, at) && (before != [] ==> at.Some?)
    ensures DescendsTo(before + p.items, p.next)
  {
    var all := before + p.items;
    forall i, j | 0 <= i < j < |all| ensures Below(KeyOf(all[j]), KeyOf(all[i])) {
      if i < |before| <= j {
        assert all[i] in before && all[j] in p.items;
      }
    }
    if p.next.Some? {
      assert p.items[0] in p.items;
    }
  }

  lemma {:induction false} ShownDescends(r: Reading, owner: Id, f: Filter)
    requires IsReading(r, owner, f)
    ensures DescendsTo(Shown(r), StartAfter(r))
  {
    if r.Then? {
      ShownDescends(r.earlier, owner, f);
      PageIsBounded(r.table, owner, f, r.limit, StartAfter(r.earlier), r.page);
      JoinDescends(Shown(r.earlier), StartAfter(r.earlier), r.page);
    }
  }

  /** Sort keys strictly descend over the whole reading, whatever happens between pages: nothing repeats. */
  lemma KeysDescend(r: Reading, owner: Id, f: Filter)
    requires IsReading(r, owner, f)
    ensures Descending(Shown(r))
  {
    ShownDescends(r, owner, f);
  }

  /** Expense `id` is active and matching, with the same sort key, in every table that is read. */
  ghost predicate Stays(r: Reading, owner: Id, f: Filter, id: Id, key: Position) {
    r.Then? ==>
      && Stays(r.earlier, owner, f, id, key)
      && id in r.table && Matches(r.table[id], owner, f) && KeyOf(r.table[id]) == key
  }

  ghost predicate IsShown(r: Reading, id: Id) {
    exists e :: e in Shown(r) && e.id == id
  }

  /** As long as it has not been shown, a row that stays lies below the start of the next page. */
  lemma {:induction false} NotSkipped(r: Reading, owner: Id, f: Filter, id: Id, key: Position)
    requires IsReading(r, owner, f) && Stays(r, owner, f, id, key) && r.Then?
    ensures IsShown(r, id) || (r.page.next.Some? && Below(key, r.page.next.value))
  {
    if r.earlier.Then? {
      NotSkipped(r.earlier, owner, f, id, key);
    }
    if e :| e in Shown(r.earlier) && e.id == id {
      assert e in Shown(r);
    } else {
      PageCovers(r.table, owner, f, r.limit, StartAfter(r.earlier), r.page, r.table[id]);
    }
  }

  /** What is shown under an id that stays has that id's key. */
  lemma {:induction false} ShownKey(r: Reading, owner: Id, f: Filter, id: Id, key: Position, e: Expense)
    requires IsReading(r, owner, f) && Stays(r, owner, f, id, key) && e in Shown(r) && e.id == id
    ensures KeyOf(e) == key
  {
    if e in r.page.items {
      assert Wanted(r.table, owner, f, StartAfter(r.earlier), e);
    } else {
      ShownKey(r.earlier, owner, f, id, key, e);
    }
  }

  /** A reading that ends shows every row that stayed exactly once. */
  lemma EveryStayingRowIsShownOnce(r: Reading, owner: Id, f: Filter, id: Id, key: Position)
    requires IsReading(r, owner, f) && Ended(r) && Stays(r, owner, f, id, key)
    ensures exists i :: 0 <= i < |Shown(r)| && Shown(r)[i].id == id
    ensures forall i, j | 0 <= i < j < |Shown(r)| :: !(Shown(r)[i].id == id && Shown(r)[j].id == id)
  {
    NotSkipped(r, owner, f, id, key);
    KeysDescend(r, owner, f);
    forall i | 0 <= i < |Shown(r)| && Shown(r)[i].id == id ensures KeyOf(Shown(r)[i]) == key {
      ShownKey(r, owner, f, id, key, Shown(r)[i]);
    }
  }

  lemma EmptyIffNoElements(s: seq<Expense>)
    ensures s == [] <==> forall e :: e !in s
  {
    if s != [] {
      assert s[0] in s;
    }
  }

  /** A strictly descending list is determined by its elements. */
  lemma {:induction false} SortedListIsUnique(a: seq<Expense>, b: seq<Expense>)
    requires Descending(a) && Descending(b)
    requires forall e :: e in a <==> e in b
    ensures a == b
    decreases |a|
  {
    if a == [] {
      EmptyIffNoElements(b);
    } else {
      assert a[0] in b && (b != [] ==> b[0] in a);
      assert a[0] == b[0];
      forall e ensures e in a[1..] <==> e in b[1..] {
        assert e in a[1..] <==> e in a && e != a[0];
        assert e in b[1..] <==> e in b && e != b[0];
      }
      SortedListIsUnique(a[1..], b[1..]);
    }
  }

  ghost predicate Unchanged(r: Reading, t: Table) {
    r.Then? ==> r.table == t && Unchanged(r.earlier, t)
  }

  lemma {:induction false} ShownIsWanted(r: Reading, owner: Id, f: Filter, t: Table, e: Expense)
    requires IsReading(r, owner, f) && Unchanged(r, t) && e in Shown(r)
    ensures Holds(t, e) && Matches(e, owner, f)
  {
    if e in r.page.items {
      assert Wanted(r.table, owner, f, StartAfter(r.earlier), e);
    } else {
      ShownIsWanted(r.earlier, owner, f, t, e);
    }
  }

  lemma {:induction false} UnchangedStays(r: Reading, owner: Id, f: Filter, t: Table, id: Id)
    requires Unchanged(r, t) && id in t && Matches(t[id], owner, f)
    ensures Stays(r, owner, f, id, KeyOf(t[id]))
  {
    if r.Then? {
      UnchangedStays(r.earlier, owner, f, t, id);
    }
  }

  /** With no changes in between, the pages concatenate to the filtered table in order. */
  lemma UnchangedTableIsListedExactly(r: Reading, owner: Id, f: Filter, t: Table, all: seq<Expense>)
    requires IsReading(r, owner, f) && Ended(r) && Unchanged(r, t)
    requires Descending(all) && forall e :: e in all <==> Holds(t, e) && Matches(e, owner, f)
    ensures Shown(r) == all
  {
    KeysDescend(r, owner, f);
    forall e ensures e in Shown(r) <==> e in all {
      if e in Shown(r) {
        ShownIsWanted(r, owner, f, t, e);
      }
      if e in all {
        UnchangedStays(r, owner, f, t, e.id);
        NotSkipped(r, owner, f, e.id, KeyOf(e));
        var x :| x in Shown(r) && x.id == e.id;
        ShownIsWanted(r, owner, f, t, x);
      }
    }
    SortedListIsUnique(Shown(r), all);
  }
}
