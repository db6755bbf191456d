/** Which recognized values are safe to prefill: clear leaders only, and no total without a trusted currency. */
module Recognition {
  import opened Wrappers
  import opened Amounts
  import opened CaptureDraft
  import opened Sorting

  const MERCHANT_MIN_CONFIDENCE: real := 0.6
  const DATE_MIN_CONFIDENCE: real := 0.7
  const TOTAL_MIN_CONFIDENCE: real := 0.8
  const CURRENCY_MIN_CONFIDENCE: real := 0.8
  const MIN_LEAD_OVER_ALTERNATIVE: real := 0.15
  const MAX_RECEIPT_AGE: int := 366

  type Scored<T> = seq<(T, real)>

  // --- the leader ---

  predicate Proposed<T(==)>(scored: Scored<T>, v: T) {
    exists i :: 0 <= i < |scored| && scored[i].0 == v
  }

  /** A value's best confidence, and never less than zero. */
  function Best<T(==)>(scored: Scored<T>, v: T): (b: real)
    ensures b >= 0.0
  {
    if scored == [] then 0.0
    else
      var n := |scored| - 1;
      var rest := Best(scored[..n], v);
      if scored[n].0 == v && scored[n].1 > rest then scored[n].1 else rest
  }

  /** The value is good enough, and well ahead of every other proposed one. */
  ghost predicate IsLeader<T>(scored: Scored<T>, v: T, minimum: real) {
    && Proposed(scored, v) && Best(scored, v) >= minimum
    && forall i | 0 <= i < |scored| && scored[i].0 != v :: Best(scored, v) - Best(scored, scored[i].0) >= MIN_LEAD_OVER_ALTERNATIVE
  }

  lemma LeaderIsUnique<T>(scored: Scored<T>, v: T, w: T, minimum: real)
    requires IsLeader(scored, v, minimum) && IsLeader(scored, w, minimum)
    ensures v == w
  {
    var i :| 0 <= i < |scored| && scored[i].0 == v;
    var j :| 0 <= j < |scored| && scored[j].0 == w;
  }

  /** Higher confidence first. */
  function ByConfidence<T>(): ((T, real), (T, real)) -> bool {
    (a: (T, real), b: (T, real)) => a.1 >= b.1
  }

  ghost predicate NoRepeats<T>(order: seq<T>) {
    forall i, j | 0 <= i < j < |order| :: order[i] != order[j]
  }

  function Items<T(==)>(order: seq<T>, best: map<T, real>): seq<(T, real)>
    requires forall v | v in order :: v in best
  {
    seq(|order|, i requires 0 <= i < |order| => (order[i], best[order[i]]))
  }

  /** Of items with distinct values, no two are the same. */
  lemma ItemsOccurOnce<T>(order: seq<T>, best: map<T, real>, x: (T, real))
    requires NoRepeats(order) && forall v | v in order :: v in best
    ensures multiset(Items(order, best))[x] <= 1
    decreases |order|
  {
    if order != [] {
      var n := |order| - 1;
      assert Items(order, best) == Items(order[..n], best) + [(order[n], best[order[n]])];
      ItemsOccurOnce(order[..n], best, x);
      assert forall i | 0 <= i < n :: Items(order[..n], best)[i].0 == order[i] && order[i] != order[n];
    }
  }

  lemma FirstTwoDiffer<T>(ranked: seq<(T, real)>, order: seq<T>, best: map<T, real>)
    requires NoRepeats(order) && forall v | v in order :: v in best
    requires multiset(ranked) == multiset(Items(order, best)) && |ranked| >= 2
    ensures ranked[0].0 != ranked[1].0
  {
    var x, y := ranked[0], ranked[1];
    ItemsOccurOnce(order, best, x);
    assert x in multiset(ranked) && y in multiset(ranked);
    assert x in Items(order, best) && y in Items(order, best);
    assert ranked == [x, y] + ranked[2..];
    assert multiset(ranked) == multiset{x, y} + multiset(ranked[2..]);
  }

  /** The best confidence of every value met so far, in the order the values were met. */
  ghost predicate BestSoFar<T(!new)>(scored: Scored<T>, order: seq<T>, best: map<T, real>) {
    && NoRepeats(order)
    && (forall v :: (v in order <==> v in best) && (v in best <==> Proposed(scored, v)))
    && (forall v | v in best :: best[v] == Best(scored, v))
  }

  lemma NotProposedNotScored<T>(scored: Scored<T>, v: T)
    requires !Proposed(scored, v)
    ensures Best(scored, v) == 0.0
  {
    if scored != [] {
      var n := |scored| - 1;
      forall i | 0 <= i < n ensures scored[..n][i].0 != v {
        assert scored[i].0 != v;
      }
      assert scored[n].0 != v;
      NotProposedNotScored(scored[..n], v);
    }
  }

  lemma ProposedLater<T(!new)>(scored: Scored<T>, x: (T, real))
    ensures forall v :: Proposed(scored + [x], v) <==> Proposed(scored, v) || v == x.0
    ensures forall v :: Best(scored + [x], v) == if x.0 == v && x.1 > Best(scored, v) then x.1 else Best(scored, v)
  {
    var more := scored + [x];
    assert more[..|scored|] == scored && more[|scored|] == x;
    forall v: T ensures Proposed(more, v) <==> Proposed(scored, v) || v == x.0 {
      if i :| 0 <= i < |scored| && scored[i].0 == v {
        assert more[i].0 == v;
      }
      if i :| 0 <= i < |more| && more[i].0 == v {
        assert i < |scored| ==> scored[i].0 == v;
      }
    }
  }

  lemma BestSoFarGrows<T(!new)>(scored: Scored<T>, order: seq<T>, best: map<T, real>, x: (T, real), b: real)
    requires BestSoFar(scored, order, best)
    requires b == (if x.0 in best then (if x.1 > best[x.0] then x.1 else best[x.0]) else if x.1 > 0.0 then x.1 else 0.0)
    ensures BestSoFar(scored + [x], if x.0 in best then order else order + [x.0], best[x.0 := b])
  {
    ProposedLater(scored, x);
    if x.0 !in best {
      NotProposedNotScored(scored, x.0);
    }
  }

  /** The best value, if it clears `minimum` and leads every different value. */
  method Leader<T(!new, ==)>(scored: Scored<T>, minimum: real) returns (leader: Option<T>)
    ensures leader.Some? ==> IsLeader(scored, leader.value, minimum)
    ensures leader.None? ==> forall v :: !IsLeader(scored, v, minimum)
  {
    if scored == [] {
      return None;
    }
    var order: seq<T> := [];
    var best: map<T, real> := map[];
    for i := 0 to |scored|
      invariant BestSoFar(scored[..i], order, best)
    {
      var (value, confidence) := scored[i];
      var previous := if value in best then best[value] else 0.0;
      var b := if confidence > previous then confidence else previous;
      BestSoFarGrows(scored[..i], order, best, scored[i], b);
      assert scored[..i + 1] == scored[..i] + [scored[i]];
      if value !in best {
        order := order + [value];
      }
      best := best[value := b];
    }
    assert scored[..|scored|] == scored;
    var ranked := Sort(Items(order, best), ByConfidence());
    leader := Judge(scored, order, best, ranked, minimum);
  }

  lemma RankedAre<T(!new)>(scored: Scored<T>, order: seq<T>, best: map<T, real>, ranked: seq<(T, real)>)
    requires BestSoFar(scored, order, best) && ranked == Sort(Items(order, best), ByConfidence())
    ensures forall i, j | 0 <= i < j < |ranked| :: ranked[i].1 >= ranked[j].1
    ensures forall x | x in ranked :: Proposed(scored, x.0) && x.1 == Best(scored, x.0)
    ensures forall v | Proposed(scored, v) :: (v, Best(scored, v)) in ranked
  {
    var le := ByConfidence<T>();
    assert TotalOrder(le);
    SortSorts(Items(order, best), le);
    forall i, j | 0 <= i < j < |ranked| ensures ranked[i].1 >= ranked[j].1 {
      assert le(ranked[i], ranked[j]);
    }
    forall x | x in ranked ensures Proposed(scored, x.0) && x.1 == Best(scored, x.0) {
      assert x in multiset(ranked) && x in Items(order, best);
      var i :| 0 <= i < |order| && Items(order, best)[i] == x;
      assert order[i] in order;
    }
    forall v | Proposed(scored, v) ensures (v, Best(scored, v)) in ranked {
      assert v in order;
      var i :| 0 <= i < |order| && order[i] == v;
      assert Items(order, best)[i] == (v, Best(scored, v));
      assert (v, Best(scored, v)) in multiset(Items(order, best));
    }
  }

  /** The first of the ranked values leads when it clears the minimum and the second is far enough behind. */
  method Judge<T(!new, ==)>(scored: Scored<T>, order: seq<T>, best: map<T, real>, ranked: seq<(T, real)>, minimum: real) returns (leader: Option<T>)
    requires scored != [] && BestSoFar(scored, order, best) && ranked == Sort(Items(order, best), ByConfidence())
    ensures leader.Some? ==> IsLeader(scored, leader.value, minimum)
    ensures leader.None? ==> forall v :: !IsLeader(scored, v, minimum)
  {
    RankedAre(scored, order, best, ranked);
    assert Proposed(scored, scored[0].0);
    var (value, confidence) := ranked[0];
    assert ranked[0] in ranked;
    OnlyTheFirstCanLead(scored, ranked, minimum);
    if confidence < minimum {
      return None;
    }
    if |ranked| > 1 && confidence - ranked[1].1 < MIN_LEAD_OVER_ALTERNATIVE {
      FirstTwoDiffer(ranked, order, best);
      assert ranked[1] in ranked;
      return None;
    }
    FirstLeads(scored, ranked, minimum);
    return Some(value);
  }

  ghost predicate IsRanking<T(!new)>(scored: Scored<T>, ranked: seq<(T, real)>) {
    && (forall i, j | 0 <= i < j < |ranked| :: ranked[i].1 >= ranked[j].1)
    && (forall x | x in ranked :: Proposed(scored, x.0) && x.1 == Best(scored, x.0))
    && (forall v | Proposed(scored, v) :: (v, Best(scored, v)) in ranked)
  }

  lemma OnlyTheFirstCanLead<T(!new)>(scored: Scored<T>, ranked: seq<(T, real)>, minimum: real)
    requires IsRanking(scored, ranked) && ranked != []
    ensures forall v | IsLeader(scored, v, minimum) :: v == ranked[0].0
  {
    var top := ranked[0].0;
    assert ranked[0] in ranked;
    forall v | IsLeader(scored, v, minimum) ensures v == top {
      var j :| 0 <= j < |ranked| && ranked[j] == (v, Best(scored, v));
      assert Best(scored, top) >= Best(scored, v);
      var i :| 0 <= i < |scored| && scored[i].0 == top;
    }
  }

  lemma FirstLeads<T(!new)>(scored: Scored<T>, ranked: seq<(T, real)>, minimum: real)
    requires IsRanking(scored, ranked) && ranked != [] && ranked[0].1 >= minimum
    requires |ranked| > 1 ==> ranked[0].1 - ranked[1].1 >= MIN_LEAD_OVER_ALTERNATIVE
    ensures IsLeader(scored, ranked[0].0, minimum)
  {
    var top := ranked[0].0;
    assert ranked[0] in ranked;
    forall i | 0 <= i < |scored| && scored[i].0 != top ensures Best(scored, top) - Best(scored, scored[i].0) >= MIN_LEAD_OVER_ALTERNATIVE {
      var w := scored[i].0;
      assert Proposed(scored, w);
      var j :| 0 <= j < |ranked| && ranked[j] == (w, Best(scored, w));
      assert j >= 1;
    }
  }

  // --- the order of candidates does not matter ---

  /** Two lists propose the same scored values, in whatever order and however often. */
  ghost predicate SameProposals<T(!new)>(a: Scored<T>, b: Scored<T>) {
    forall x :: x in a <==> x in b
  }

  lemma {:induction false} BestIsAttained<T>(scored: Scored<T>, v: T)
    ensures Best(scored, v) == 0.0 || (v, Best(scored, v)) in scored
    ensures forall x | x in scored && x.0 == v :: x.1 <= Best(scored, v)
  {
    if scored != [] {
      var n := |scored| - 1;
      BestIsAttained(scored[..n], v);
      assert scored == scored[..n] + [scored[n]];
    }
  }

  lemma SameBest<T(!new)>(a: Scored<T>, b: Scored<T>, v: T)
    requires SameProposals(a, b)
    ensures Best(a, v) == Best(b, v)
  {
    BestIsAttained(a, v);
    BestIsAttained(b, v);
    assert (v, Best(a, v)) in a ==> (v, Best(a, v)) in b;
    assert (v, Best(b, v)) in b ==> (v, Best(b, v)) in a;
  }

  lemma SameLeaderOneWay<T(!new)>(a: Scored<T>, b: Scored<T>, v: T, minimum: real)
    requires SameProposals(a, b) && IsLeader(a, v, minimum)
    ensures IsLeader(b, v, minimum)
  {
    SameBest(a, b, v);
    var i :| 0 <= i < |a| && a[i].0 == v;
    assert a[i] in b;
    var j :| 0 <= j < |b| && b[j] == a[i];
    assert Proposed(b, v);
    forall k | 0 <= k < |b| && b[k].0 != v ensures Best(b, v) - Best(b, b[k].0) >= MIN_LEAD_OVER_ALTERNATIVE {
      SameBest(a, b, b[k].0);
      assert b[k] in a;
      var m :| 0 <= m < |a| && a[m] == b[k];
    }
  }

  /** The leader depends on what is proposed with what confidence, not on the order. */
  lemma OrderDoesNotMatter<T(!new)>(a: Scored<T>, b: Scored<T>, v: T, minimum: real)
    requires SameProposals(a, b)
    ensures IsLeader(a, v, minimum) <==> IsLeader(b, v, minimum)
  {
    if IsLeader(a, v, minimum) {
      SameLeaderOneWay(a, b, v, minimum);
    }
    if IsLeader(b, v, minimum) {
      SameLeaderOneWay(b, a, v, minimum);
    }
  }

  // --- selection ---

  datatype Label = TotalLabel | SubtotalLabel | Unlabeled

  datatype Evidence = ExplicitCode | UnambiguousSymbol | AmbiguousSymbol

  datatype MerchantCandidate = MerchantCandidate(text: string, confidence: real)

  /** Every calendar reading of one printed date. */
  datatype DateCandidate = DateCandidate(readings: set<Day>, confidence: real)

  datatype TotalCandidate = TotalCandidate(value: real, labelled: Label, confidence: real)

  datatype CurrencyCandidate = CurrencyCandidate(code: string, evidence: Evidence, confidence: real)

  datatype Output = Output(
    merchants: seq<MerchantCandidate>, dates: seq<DateCandidate>, totals: seq<TotalCandidate>, currencies: seq<CurrencyCandidate>)

  datatype Selected = Selected(merchant: Option<string>, date: Option<Day>, total: Option<Money>)

  /** Reading names and codes, the owner's local day, and the days that can be transaction dates. */
  datatype Readers = Readers(
    merchantName: string -> Option<string>,
    currency: string -> Option<Currency>,
    today: Day,
    isTransactionDate: Day -> bool)

  /** What one candidate contributes to the vote: at most one scored value. */
  function MerchantVote(r: Readers, c: MerchantCandidate): Option<(string, real)> {
    if r.merchantName(c.text).Some? then Some((r.merchantName(c.text).value, c.confidence)) else None
  }

  predicate Plausible(r: Readers, day: Day) {
    r.today - MAX_RECEIPT_AGE <= day && r.isTransactionDate(day) && day <= r.today + 1
  }

  function PlausibleReadings(r: Readers, c: DateCandidate): set<Day> {
    set day | day in c.readings && Plausible(r, day)
  }

  /** Only a single plausible reading is trusted. */
  ghost predicate IsDateVote(r: Readers, c: DateCandidate, vote: Option<(Day, real)>) {
    && (vote.Some? <==> |PlausibleReadings(r, c)| == 1)
    && (vote.Some? ==> PlausibleReadings(r, c) == {vote.value.0} && vote.value.1 == c.confidence)
  }

  function CurrencyVote(r: Readers, c: CurrencyCandidate): Option<(Currency, real)> {
    if c.evidence.AmbiguousSymbol? || r.currency(c.code).None? then None else Some((r.currency(c.code).value, c.confidence))
  }

  function TotalVote(c: TotalCandidate): Option<(real, real)> {
    if c.labelled.TotalLabel? && c.value > 0.0 then Some((c.value, c.confidence)) else None
  }

  ghost predicate MerchantVotes(r: Readers, candidates: seq<MerchantCandidate>, votes: Scored<string>) {
    forall x :: x in votes <==> exists c :: c in candidates && MerchantVote(r, c) == Some(x)
  }

  ghost predicate DateVotes(r: Readers, candidates: seq<DateCandidate>, votes: Scored<Day>) {
    forall x :: x in votes <==> exists c :: c in candidates && IsDateVote(r, c, Some(x))
  }

  ghost predicate CurrencyVotes(r: Readers, candidates: seq<CurrencyCandidate>, votes: Scored<Currency>) {
    forall x :: x in votes <==> exists c :: c in candidates && CurrencyVote(r, c) == Some(x)
  }

  ghost predicate TotalVotes(candidates: seq<TotalCandidate>, votes: Scored<real>) {
    forall x :: x in votes <==> exists c :: c in candidates && TotalVote(c) == Some(x)
  }

  /** The choice is the votes' leader, or nothing when there is none. */
  ghost predicate IsChoice<T(!new)>(votes: Scored<T>, minimum: real, choice: Option<T>) {
    if choice.Some? then IsLeader(votes, choice.value, minimum) else forall v :: !IsLeader(votes, v, minimum)
  }

  ghost predicate IsMerchantChoice(r: Readers, candidates: seq<MerchantCandidate>, choice: Option<string>) {
    exists votes :: MerchantVotes(r, candidates, votes) && IsChoice(votes, MERCHANT_MIN_CONFIDENCE, choice)
  }

  ghost predicate IsDateChoice(r: Readers, candidates: seq<DateCandidate>, choice: Option<Day>) {
    exists votes :: DateVotes(r, candidates, votes) && IsChoice(votes, DATE_MIN_CONFIDENCE, choice)
  }

  ghost predicate IsCurrencyChoice(r: Readers, candidates: seq<CurrencyCandidate>, choice: Option<Currency>) {
    exists votes :: CurrencyVotes(r, candidates, votes) && IsChoice(votes, CURRENCY_MIN_CONFIDENCE, choice)
  }

  method SelectMerchant(r: Readers, candidates: seq<MerchantCandidate>) returns (choice: Option<string>)
    ensures IsMerchantChoice(r, candidates, choice)
  {
    var names: Scored<string> := [];
    for i := 0 to |candidates|
      invariant MerchantVotes(r, candidates[..i], names)
    {
      assert candidates[..i + 1] == candidates[..i] + [candidates[i]];
      var vote := MerchantVote(r, candidates[i]);
      if vote.Some? {
        names := names + [vote.value];
      }
    }
    assert candidates[..|candidates|] == candidates;
    choice := Leader(names, MERCHANT_MIN_CONFIDENCE);
    assert IsChoice(names, MERCHANT_MIN_CONFIDENCE, choice);
  }

  lemma OneReading(r: Readers, c: DateCandidate, day: Day)
    requires day in PlausibleReadings(r, c) && |PlausibleReadings(r, c)| == 1
    ensures PlausibleReadings(r, c) == {day}
  {
    assert |PlausibleReadings(r, c) - {day}| == 0;
  }

  lemma DateVotesGrow(r: Readers, done: seq<DateCandidate>, c: DateCandidate, scored: Scored<Day>, vote: Option<(Day, real)>)
    requires DateVotes(r, done, scored) && IsDateVote(r, c, vote)
    ensures DateVotes(r, done + [c], if vote.Some? then scored + [vote.value] else scored)
  {
    var now := if vote.Some? then scored + [vote.value] else scored;
    forall x ensures IsDateVote(r, c, Some(x)) <==> vote == Some(x) {
      if IsDateVote(r, c, Some(x)) {
        assert x.0 in PlausibleReadings(r, c);
      }
    }
    forall x ensures x in now <==> exists d :: d in done + [c] && IsDateVote(r, d, Some(x)) {
      if x in scored {
        var d :| d in done && IsDateVote(r, d, Some(x));
        assert d in done + [c];
      }
      if vote == Some(x) {
        assert c in done + [c];
      }
    }
  }

  method SelectDate(r: Readers, candidates: seq<DateCandidate>) returns (choice: Option<Day>)
    ensures IsDateChoice(r, candidates, choice)
  {
    var scored: Scored<Day> := [];
    for i := 0 to |candidates|
      invariant DateVotes(r, candidates[..i], scored)
    {
      assert candidates[..i + 1] == candidates[..i] + [candidates[i]];
      var plausible := PlausibleReadings(r, candidates[i]);
      if |plausible| == 1 {
        var day :| day in plausible;
        OneReading(r, candidates[i], day);
        DateVotesGrow(r, candidates[..i], candidates[i], scored, Some((day, candidates[i].confidence)));
        scored := scored + [(day, candidates[i].confidence)];
      } else {
        DateVotesGrow(r, candidates[..i], candidates[i], scored, None);
      }
    }
    assert candidates[..|candidates|] == candidates;
    choice := Leader(scored, DATE_MIN_CONFIDENCE);
    assert IsChoice(scored, DATE_MIN_CONFIDENCE, choice);
  }

  method SelectCurrency(r: Readers, candidates: seq<CurrencyCandidate>) returns (choice: Option<Currency>)
    ensures IsCurrencyChoice(r, candidates, choice)
  {
    var scored: Scored<Currency> := [];
    for i := 0 to |candidates|
      invariant CurrencyVotes(r, candidates[..i], scored)
    {
      assert candidates[..i + 1] == candidates[..i] + [candidates[i]];
      var vote := CurrencyVote(r, candidates[i]);
      if vote.Some? {
        scored := scored + [vote.value];
      }
    }
    assert candidates[..|candidates|] == candidates;
    choice := Leader(scored, CURRENCY_MIN_CONFIDENCE);
    assert IsChoice(scored, CURRENCY_MIN_CONFIDENCE, choice);
  }

  /** A number of major units as money, if it is exact in the currency and in range. */
  function ToMinorUnits(value: real, currency: Currency): Option<Money> {
    var scaled := value * Pow10(MinorUnitExponent(currency)) as real;
    if scaled.Floor as real != scaled then None
    else
      var money := MakeMoney(scaled.Floor, currency);
      if money.Accepted? then Some(money.value) else None
  }

  method CollectTotals(candidates: seq<TotalCandidate>) returns (scored: Scored<real>)
    ensures TotalVotes(candidates, scored)
  {
    scored := [];
    for i := 0 to |candidates|
      invariant TotalVotes(candidates[..i], scored)
    {
      assert candidates[..i + 1] == candidates[..i] + [candidates[i]];
      var vote := TotalVote(candidates[i]);
      if vote.Some? {
        scored := scored + [vote.value];
      }
    }
    assert candidates[..|candidates|] == candidates;
  }

  /** The chosen total in the chosen currency; nothing without a currency. */
  ghost predicate IsTotal(votes: Scored<real>, currency: Option<Currency>, total: Option<Money>) {
    exists choice :: IsChoice(votes, TOTAL_MIN_CONFIDENCE, choice)
      && total == if currency.None? || choice.None? then None else ToMinorUnits(choice.value, currency.value)
  }

  ghost predicate IsTotalChoice(candidates: seq<TotalCandidate>, currency: Option<Currency>, total: Option<Money>) {
    exists votes :: TotalVotes(candidates, votes) && IsTotal(votes, currency, total)
  }

  method SelectTotal(candidates: seq<TotalCandidate>, currency: Option<Currency>) returns (total: Option<Money>)
    ensures IsTotalChoice(candidates, currency, total)
  {
    var scored := CollectTotals(candidates);
    var chosen := Leader(scored, TOTAL_MIN_CONFIDENCE);
    assert IsChoice(scored, TOTAL_MIN_CONFIDENCE, chosen);
    total := if currency.None? || chosen.None? then None else ToMinorUnits(chosen.value, currency.value);
    assert IsTotal(scored, currency, total);
  }

  /** The votes behind a selection. */
  datatype Votes = Votes(merchants: Scored<string>, dates: Scored<Day>, currencies: Scored<Currency>, totals: Scored<real>)

  ghost predicate AreVotes(r: Readers, o: Output, v: Votes) {
    && MerchantVotes(r, o.merchants, v.merchants) && DateVotes(r, o.dates, v.dates)
    && CurrencyVotes(r, o.currencies, v.currencies) && TotalVotes(o.totals, v.totals)
  }

  ghost predicate IsSelection(v: Votes, currency: Option<Currency>, s: Selected) {
    && IsChoice(v.merchants, MERCHANT_MIN_CONFIDENCE, s.merchant) && IsChoice(v.dates, DATE_MIN_CONFIDENCE, s.date)
    && IsChoice(v.currencies, CURRENCY_MIN_CONFIDENCE, currency) && IsTotal(v.totals, currency, s.total)
  }

  /** What may be kept of an output: each value its own candidates' choice, the total in the chosen currency. */
  ghost predicate Selects(r: Readers, o: Output, s: Selected) {
    && IsMerchantChoice(r, o.merchants, s.merchant) && IsDateChoice(r, o.dates, s.date)
    && exists currency :: IsCurrencyChoice(r, o.currencies, currency) && IsTotalChoice(o.totals, currency, s.total)
  }

  /** Keep only values safe to prefill. */
  method SelectValues(r: Readers, o: Output) returns (s: Selected)
    ensures Selects(r, o, s)
  {
    var merchant := SelectMerchant(r, o.merchants);
    var date := SelectDate(r, o.dates);
    var code := SelectCurrency(r, o.currencies);
    var total := SelectTotal(o.totals, code);
    return Selected(merchant, date, total);
  }

  lemma SelectionHasVotes(r: Readers, o: Output, s: Selected) returns (v: Votes, currency: Option<Currency>)
    requires Selects(r, o, s)
    ensures AreVotes(r, o, v) && IsSelection(v, currency, s)
  {
    var merchants :| MerchantVotes(r, o.merchants, merchants) && IsChoice(merchants, MERCHANT_MIN_CONFIDENCE, s.merchant);
    var dates :| DateVotes(r, o.dates, dates) && IsChoice(dates, DATE_MIN_CONFIDENCE, s.date);
    currency :| IsCurrencyChoice(r, o.currencies, currency) && IsTotalChoice(o.totals, currency, s.total);
    var currencies :| CurrencyVotes(r, o.currencies, currencies) && IsChoice(currencies, CURRENCY_MIN_CONFIDENCE, currency);
    var totals :| TotalVotes(o.totals, totals) && IsTotal(totals, currency, s.total);
    v := Votes(merchants, dates, currencies, totals);
  }

  lemma SameChoice<T(!new)>(a: Scored<T>, b: Scored<T>, minimum: real, x: Option<T>, y: Option<T>)
    requires SameProposals(a, b) && IsChoice(a, minimum, x) && IsChoice(b, minimum, y)
    ensures x == y
  {
    if x.Some? {
      OrderDoesNotMatter(a, b, x.value, minimum);
      if y.Some? {
        LeaderIsUnique(b, x.value, y.value, minimum);
      }
    } else if y.Some? {
      OrderDoesNotMatter(a, b, y.value, minimum);
    }
  }

  /** The same candidates in another order. */
  ghost predicate SameCandidates(a: Output, b: Output) {
    && (forall c :: c in a.merchants <==> c in b.merchants) && (forall c :: c in a.dates <==> c in b.dates)
    && (forall c :: c in a.totals <==> c in b.totals) && (forall c :: c in a.currencies <==> c in b.currencies)
  }

  lemma SameVotes(r: Readers, a: Output, b: Output, v: Votes, w: Votes)
    requires SameCandidates(a, b) && AreVotes(r, a, v) && AreVotes(r, b, w)
    ensures SameProposals(v.merchants, w.merchants) && SameProposals(v.dates, w.dates)
    ensures SameProposals(v.currencies, w.currencies) && SameProposals(v.totals, w.totals)
  {
  }

  /** What is kept does not depend on the order in which the recognizer lists its candidates. */
  lemma SelectionIgnoresOrder(r: Readers, a: Output, b: Output, s: Selected, t: Selected)
    requires SameCandidates(a, b) && Selects(r, a, s) && Selects(r, b, t)
    ensures s == t
  {
    var v, codeA := SelectionHasVotes(r, a, s);
    var w, codeB := SelectionHasVotes(r, b, t);
    SameVotes(r, a, b, v, w);
    SameChoice(v.merchants, w.merchants, MERCHANT_MIN_CONFIDENCE, s.merchant, t.merchant);
    SameChoice(v.dates, w.dates, DATE_MIN_CONFIDENCE, s.date, t.date);
    SameChoice(v.currencies, w.currencies, CURRENCY_MIN_CONFIDENCE, codeA, codeB);
    var x :| IsChoice(v.totals, TOTAL_MIN_CONFIDENCE, x)
             && s.total == if codeA.None? || x.None? then None else ToMinorUnits(x.value, codeA.value);
    var y :| IsChoice(w.totals, TOTAL_MIN_CONFIDENCE, y)
             && t.total == if codeB.None? || y.None? then None else ToMinorUnits(y.value, codeB.value);
    SameChoice(v.totals, w.totals, TOTAL_MIN_CONFIDENCE, x, y);
  }

  lemma ChoiceIsVotedFor<T(!new)>(votes: Scored<T>, minimum: real, choice: Option<T>)
    requires minimum > 0.0 && IsChoice(votes, minimum, choice) && choice.Some?
    ensures (choice.value, Best(votes, choice.value)) in votes && Best(votes, choice.value) >= minimum
  {
    BestIsAttained(votes, choice.value);
  }

  /**
   * What is kept was proposed, with enough confidence: a merchant and a date by a candidate that reads
   * as it, and a total by one labelled as the total, in a currency that trusted evidence proposed.
   */
  lemma KeptWasProposed(r: Readers, o: Output, s: Selected)
    requires Selects(r, o, s)
    ensures s.merchant.Some? ==> exists c :: c in o.merchants && r.merchantName(c.text) == s.merchant && c.confidence >= MERCHANT_MIN_CONFIDENCE
    ensures s.date.Some? ==> exists c :: c in o.dates && PlausibleReadings(r, c) == {s.date.value} && c.confidence >= DATE_MIN_CONFIDENCE
    ensures s.total.Some? ==> exists c :: c in o.currencies && !c.evidence.AmbiguousSymbol? && r.currency(c.code) == Some(s.total.value.currency)
                                          && c.confidence >= CURRENCY_MIN_CONFIDENCE
    ensures s.total.Some? ==> exists c :: c in o.totals && c.labelled.TotalLabel? && c.value > 0.0 && c.confidence >= TOTAL_MIN_CONFIDENCE
                                          && ToMinorUnits(c.value, s.total.value.currency) == s.total
  {
    var v, currency := SelectionHasVotes(r, o, s);
    if s.merchant.Some? {
      ChoiceIsVotedFor(v.merchants, MERCHANT_MIN_CONFIDENCE, s.merchant);
    }
    if s.date.Some? {
      ChoiceIsVotedFor(v.dates, DATE_MIN_CONFIDENCE, s.date);
    }
    if s.total.Some? {
      ChoiceIsVotedFor(v.currencies, CURRENCY_MIN_CONFIDENCE, currency);
      var x :| IsChoice(v.totals, TOTAL_MIN_CONFIDENCE, x)
               && s.total == if currency.None? || x.None? then None else ToMinorUnits(x.value, currency.value);
      ChoiceIsVotedFor(v.totals, TOTAL_MIN_CONFIDENCE, x);
      KeptTotal(o, v, currency.value, x.value, s.total);
    }
  }

  lemma KeptTotal(o: Output, v: Votes, currency: Currency, value: real, total: Option<Money>)
    requires TotalVotes(o.totals, v.totals) && (value, Best(v.totals, value)) in v.totals && Best(v.totals, value) >= TOTAL_MIN_CONFIDENCE
    requires total == ToMinorUnits(value, currency) && total.Some?
    ensures total.value.currency == currency
    ensures exists c :: c in o.totals && c.labelled.TotalLabel? && c.value > 0.0 && c.confidence >= TOTAL_MIN_CONFIDENCE
                        && ToMinorUnits(c.value, total.value.currency) == total
  {
    var c :| c in o.totals && TotalVote(c) == Some((value, Best(v.totals, value)));
  }

  /** A kept total is a positive, exact number of minor units. */
  lemma KeptTotalIsExact(value: real, currency: Currency)
    requires value > 0.0 && ToMinorUnits(value, currency).Some?
    ensures var m := ToMinorUnits(value, currency).value;
            m.minorUnits > 0 && Representable(m) && m.minorUnits as real == value * Pow10(MinorUnitExponent(currency)) as real
  {
    Positive(value, Pow10(MinorUnitExponent(currency)) as real);
  }

  lemma Positive(a: real, b: real)
    requires a > 0.0 && b > 0.0
    ensures a * b > 0.0
  {
  }
}
