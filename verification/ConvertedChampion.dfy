/**
 The documented tie rule of the converted largest expense: among equal converted amounts the later
 expense. Comparing only each currency's largest keeps to it exactly when no other expense, smaller but
 later than the champion, rounds to the champion's amount.
 */
module ConvertedChampion {
  import opened Wrappers
  import opened Amounts
  import opened CaptureDraft
  import opened Expenses
  import opened Rounding
  import opened ConvertedDashboard
  import R = Rates

  predicate ConvertsTo(s: Snapshot, e: Expense, amount: int) {
    ConvertedAt(s, e.money.minorUnits, e.money.currency) == R.Amount(amount)
  }

  /** The documented largest expense: no expense with a rate converts to more, or to as much at a later date, creation or id. */
  ghost predicate IsDocumented(s: Snapshot, rows: seq<Expense>, e: Expense, amount: int) {
    && e in rows && ConvertsTo(s, e, amount)
    && forall other | other in rows && Convertible(s, other.money.currency) ::
         exists n :: ConvertsTo(s, other, n) && LargerOrTied(n, other, amount, e)
  }

  predicate IsLater(a: Expense, b: Expense) {
    !TieLe(a, b)
  }

  /** Some expense of the same currency is larger. */
  ghost predicate IsOutdone(rows: seq<Expense>, e: Expense) {
    exists larger :: larger in rows && larger.money.currency == e.money.currency && e.money.minorUnits < larger.money.minorUnits
  }

  /** An expense the comparison never sees, later than the champion and of the same converted amount. */
  ghost predicate IsOverlooked(s: Snapshot, rows: seq<Expense>, best: Candidate, e: Expense) {
    && e in rows && Convertible(s, e.money.currency) && IsOutdone(rows, e)
    && IsLater(e, best.expense) && ConvertsTo(s, e, best.converted)
  }

  lemma TiesAreTransitive(a: Expense, b: Expense, c: Expense)
    requires TieLe(a, b) && TieLe(b, c)
    ensures TieLe(a, c)
  {
  }

  // --- the documented champion, over the rows ---

  lemma GreaterOfTwo(s: Snapshot, a: Expense, n: int, b: Expense, m: int)
    ensures LargerOrTied(n, a, m, b) || LargerOrTied(m, b, n, a)
  {
  }

  /** Expenses with a rate, all of which convert, have a documented largest one. */
  lemma {:induction false} DocumentedExists(s: Snapshot, rows: seq<Expense>) returns (w: Expense, n: int)
    requires exists e :: e in rows && Convertible(s, e.money.currency)
    requires forall e | e in rows && Convertible(s, e.money.currency) :: ConvertedAt(s, e.money.minorUnits, e.money.currency).Amount?
    ensures IsDocumented(s, rows, w, n) && Convertible(s, w.money.currency)
  {
    var first, rest := rows[0], rows[1..];
    assert rows == [first] + rest;
    if exists e :: e in rest && Convertible(s, e.money.currency) {
      w, n := DocumentedExists(s, rest);
      if Convertible(s, first.money.currency) {
        var m := ConvertedAt(s, first.money.minorUnits, first.money.currency).minorUnits;
        assert ConvertsTo(s, first, m);
        GreaterOfTwo(s, first, m, w, n);
        if !LargerOrTied(m, first, n, w) {
          OnlyGreater(s, rest, w, n, first, m);
          w, n := first, m;
        }
      }
    } else {
      w, n := first, ConvertedAt(s, first.money.minorUnits, first.money.currency).minorUnits;
      assert ConvertsTo(s, w, n);
    }
  }

  /** What is greater than the greatest is greater than all. */
  lemma OnlyGreater(s: Snapshot, rows: seq<Expense>, w: Expense, n: int, x: Expense, m: int)
    requires IsDocumented(s, rows, w, n) && ConvertsTo(s, x, m) && LargerOrTied(n, w, m, x)
    ensures forall e | e in rows && Convertible(s, e.money.currency) :: exists k :: ConvertsTo(s, e, k) && LargerOrTied(k, e, m, x)
  {
    forall e | e in rows && Convertible(s, e.money.currency) ensures exists k :: ConvertsTo(s, e, k) && LargerOrTied(k, e, m, x) {
      var k :| ConvertsTo(s, e, k) && LargerOrTied(k, e, n, w);
      if k == n == m {
        TiesAreTransitive(e, w, x);
      }
    }
  }

  /** The champion converts to as much as the documented one, which is no earlier; and no later either if no one of its currency is larger. */
  lemma ChampionTies(s: Snapshot, rows: seq<Expense>, candidates: seq<Candidate>, best: Candidate, w: Expense, n: int)
    requires Ordered(s) && AreCandidates(s, rows, candidates) && IsBest(candidates, best)
    requires IsDocumented(s, rows, w, n) && Convertible(s, w.money.currency)
    ensures best.converted == n && TieLe(best.expense, w)
    ensures !IsOutdone(rows, w) ==> TieLe(w, best.expense)
  {
    assert IsCandidate(s, rows, best) && ConvertsTo(s, best.expense, best.converted);
    ChampionIsLargest(s, rows, candidates, best, w);
    if !IsOutdone(rows, w) {
      var x :| x in candidates && x.expense.money.currency == w.money.currency && x.converted == best.converted && TieLe(x.expense, best.expense);
      assert IsCandidate(s, rows, x) && TieLe(w, x.expense);
      TiesAreTransitive(w, x.expense, best.expense);
    }
  }

  /** Rows of a table: no two have one id. */
  ghost predicate AreRows(rows: seq<Expense>) {
    forall a, b | a in rows && b in rows && a.id == b.id :: a == b
  }

  /**
   What decides it, over the rows alone: the documented largest expense is the one found exactly when no
   expense of its own currency is larger. The converted amount is the documented one in any case.
   */
  lemma DocumentedIsFoundIff(s: Snapshot, rows: seq<Expense>, candidates: seq<Candidate>, best: Candidate, w: Expense, n: int)
    requires Ordered(s) && AreRows(rows) && AreCandidates(s, rows, candidates) && IsBest(candidates, best)
    requires IsDocumented(s, rows, w, n) && Convertible(s, w.money.currency)
    ensures best.converted == n
    ensures best.expense == w <==> !IsOutdone(rows, w)
  {
    ChampionTies(s, rows, candidates, best, w, n);
    assert IsCandidate(s, rows, best);
  }

  /** So the champion is the documented largest expense exactly when nothing later of its amount is overlooked. */
  lemma ChampionIsDocumentedIff(s: Snapshot, rows: seq<Expense>, candidates: seq<Candidate>, best: Candidate)
    requires Ordered(s) && AreCandidates(s, rows, candidates) && IsBest(candidates, best)
    ensures IsDocumented(s, rows, best.expense, best.converted) <==> forall e :: !IsOverlooked(s, rows, best, e)
  {
    assert IsCandidate(s, rows, best) && best.expense in rows;
    forall e | e in rows && Convertible(s, e.money.currency) ensures ConvertedAt(s, e.money.minorUnits, e.money.currency).Amount? {
      ChampionIsLargest(s, rows, candidates, best, e);
    }
    var w, n := DocumentedExists(s, rows);
    ChampionTies(s, rows, candidates, best, w, n);
    if forall e :: !IsOverlooked(s, rows, best, e) {
      assert !IsOverlooked(s, rows, best, w);
      assert TieLe(w, best.expense);
      OnlyGreater(s, rows, w, n, best.expense, best.converted);
    }
  }

  /** Only rounding can hide an expense: none is overlooked in the target currency itself. */
  lemma OverlookedIsForeign(s: Snapshot, eps: real, rows: seq<Expense>, candidates: seq<Candidate>, best: Candidate, e: Expense)
    requires Sound(s, eps) && Ordered(s) && AreCandidates(s, rows, candidates) && IsBest(candidates, best)
    requires IsOverlooked(s, rows, best, e)
    ensures e.money.currency != s.target
  {
    if e.money.currency == s.target {
      var larger :| larger in rows && larger.money.currency == e.money.currency && e.money.minorUnits < larger.money.minorUnits;
      assert ConvertsWell(s, e.money.minorUnits, s.target, eps) && ConvertsWell(s, larger.money.minorUnits, s.target, eps);
      ChampionIsLargest(s, rows, candidates, best, larger);
    }
  }

  // --- (an example: one dollar, then ninety-nine cents a day later, at three dollars to the euro) ---

  const DOLLAR := Expense(1, 7, Money(100, USD), 1, None, UNCATEGORIZED_KEY, None, WebManual, 1, None, 0, 0, None)
  const CENTS := Expense(2, 7, Money(99, USD), 2, None, UNCATEGORIZED_KEY, None, WebManual, 2, None, 1, 1, None)

  function ThreeDollars(): R.RateTable {
    map[USD := 3.0]
  }

  lemma ThirdOfADollar()
    ensures R.CanConvert(ThreeDollars(), USD, EUR) && 3.0 * R.ExactRate(ThreeDollars(), USD, EUR) == 1.0
  {
    assert Pow10(1) == 10 && Pow10(2) == 100;
  }

  /** About a third of the amount, to the nearest cent. */
  lemma NearAThird(context: R.Context, epsilon: real, minorUnits: nat, rate: real)
    requires R.Correct(context, epsilon) && 0.0 < epsilon <= 0.0001 && context.limit >= 1000 && 99 <= minorUnits <= 100
    requires R.CanConvert(ThreeDollars(), USD, EUR) && rate == R.ExactRate(ThreeDollars(), USD, EUR) && 3.0 * rate == 1.0
    ensures R.Convert(context, ThreeDollars(), minorUnits, USD, EUR) == R.Amount(33)
  {
    var exact := minorUnits as real * rate;
    R.SmallAmountsFit(context, epsilon, ThreeDollars(), minorUnits, USD, EUR, exact);
    var r := R.Convert(context, ThreeDollars(), minorUnits, USD, EUR);
    R.ConvertError(context, epsilon, ThreeDollars(), minorUnits, USD, EUR, exact, r);
  }

  lemma DefaultContextIsPrecise(context: R.Context, epsilon: real)
    requires context == R.DefaultContext() && epsilon == Epsilon()
    ensures 0.0 < epsilon <= 0.0001 && context.limit >= 1000
  {
  }

  /** At the stored rate and in the program's own arithmetic both become 33 euro cents, and the earlier one is reported. */
  lemma TheLaterOfTwoCanBeOverlooked() returns (s: Snapshot, best: Candidate)
    ensures s == AtRates(R.DefaultContext(), ThreeDollars(), EUR) && best == Candidate(33, DOLLAR)
    ensures AreCandidates(s, [DOLLAR, CENTS], [best]) && IsBest([best], best)
    ensures IsOverlooked(s, [DOLLAR, CENTS], best, CENTS)
    ensures !IsDocumented(s, [DOLLAR, CENTS], DOLLAR, 33) && IsDocumented(s, [DOLLAR, CENTS], CENTS, 33)
  {
    var context, epsilon := R.DefaultContext(), Epsilon();
    s := AtRates(context, ThreeDollars(), EUR);
    best := Candidate(33, DOLLAR);
    R.DefaultContextIsCorrect(context, epsilon);
    DefaultContextIsPrecise(context, epsilon);
    ThirdOfADollar();
    var rate := R.ExactRate(ThreeDollars(), USD, EUR);
    NearAThird(context, epsilon, 100, rate);
    NearAThird(context, epsilon, 99, rate);
    TheLaterIsOverlooked(s, [DOLLAR, CENTS], best);
  }

  lemma TheLaterIsOverlooked(s: Snapshot, rows: seq<Expense>, best: Candidate)
    requires rows == [DOLLAR, CENTS] && best == Candidate(33, DOLLAR) && ConvertsTo(s, DOLLAR, 33) && ConvertsTo(s, CENTS, 33)
    requires Convertible(s, USD)
    ensures AreCandidates(s, rows, [best]) && IsBest([best], best) && IsOverlooked(s, rows, best, CENTS)
    ensures !IsDocumented(s, rows, DOLLAR, 33) && IsDocumented(s, rows, CENTS, 33)
  {
    assert [best][0] == best && rows[0] == DOLLAR && rows[1] == CENTS;
  }
}
