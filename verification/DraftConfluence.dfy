/**
 A recognition result may reach an open draft before, between or after the user's edits. The
 four recognizable fields and their provenance end up the same whenever it arrives: the user's
 last value wins, then the recognized value, then the default. Only the draft's state can tell.
 */
module DraftConfluence {
  import opened Wrappers
  import opened Amounts
  import opened CaptureDraft

  datatype Edit =
    | Amount(money: Money)
    | Date(day: Day)
    | Merchant(name: string)
    | Category(key: string)
    | Note(note: Option<string>)

  function ApplyEdit(d: Draft, e: Edit, now: Instant): Result<Draft> {
    match e
    case Amount(m) => SetAmount(d, d.owner, m, now)
    case Date(day) => SetDate(d, d.owner, day, now)
    case Merchant(name) => SetMerchant(d, d.owner, name, now)
    case Category(key) => SetCategory(d, d.owner, key, now)
    case Note(note) => SetNote(d, d.owner, note, now)
  }

  /** A run of edits; an edit the domain rejects leaves the draft as it was. */
  function ApplyEdits(d: Draft, edits: seq<Edit>, now: Instant): Draft
    decreases |edits|
  {
    if edits == [] then d else
    var next := ApplyEdit(d, edits[0], now);
    ApplyEdits(if next.Accepted? then next.value else d, edits[1..], now)
  }

  predicate Fits(d: Draft, r: RecognitionResult) {
    r.owner == d.owner && Some(r.receiptId) == d.receiptId && Open(d.state)
  }

  /** The first `k` edits, then the result, then the remaining edits. */
  function WithResultAt(d: Draft, edits: seq<Edit>, r: RecognitionResult, k: nat, now: Instant): Draft
    requires k <= |edits| && Fits(d, r)
  {
    EditsKeepIdentity(d, edits[..k], now);
    ApplyEdits(ApplyRecognition(ApplyEdits(d, edits[..k], now), r, now).value, edits[k..], now)
  }

  /** The last user value among the edits, if any. */
  function Last<T>(edits: seq<Edit>, pick: Edit -> Option<T>): Option<T> {
    if edits == [] then None else
    var later := Last(edits[1..], pick);
    if later.Some? then later else pick(edits[0])
  }

  function AmountOf(e: Edit): Option<Money> { if e.Amount? then Some(e.money) else None }
  function DateOf(e: Edit): Option<Day> { if e.Date? then Some(e.day) else None }
  function MerchantOf(e: Edit): Option<string> { if e.Merchant? then Some(e.name) else None }
  function CategoryOf(e: Edit): Option<string> { if e.Category? && StableKey(e.key) then Some(e.key) else None }

  /** User value, else recognized value where it may fill, else what was there. */
  function Winner<T>(user: Option<T>, recognized: Option<T>, before: Field<T>): Field<T> {
    if user.Some? then Set(user.value, User) else Fill(before, recognized)
  }

  /** The values every interleaving must produce. */
  predicate Outcome(before: Draft, edits: seq<Edit>, r: RecognitionResult, after: Draft) {
    && after.amount == Winner(Last(edits, AmountOf), r.total, before.amount)
    && after.date == Winner(Last(edits, DateOf), r.date, before.date)
    && after.merchant == Winner(Last(edits, MerchantOf), r.merchant, before.merchant)
    && after.category ==
         (var user := Last(edits, CategoryOf);
          if user.Some? then Set(user.value, User) else Propose(before.category, UNCATEGORIZED_KEY))
  }

  /** What a run of edits alone does to the recognizable fields. */
  lemma {:induction false} EditsSetLastValues(d: Draft, edits: seq<Edit>, now: Instant)
    requires Open(d.state)
    ensures var after := ApplyEdits(d, edits, now);
      && after.amount == Winner(Last(edits, AmountOf), None, d.amount)
      && after.date == Winner(Last(edits, DateOf), None, d.date)
      && after.merchant == Winner(Last(edits, MerchantOf), None, d.merchant)
      && after.category == Winner(Last(edits, CategoryOf), None, d.category)
    decreases |edits|
  {
    if edits != [] {
      var next := ApplyEdit(d, edits[0], now);
      EditsSetLastValues(if next.Accepted? then next.value else d, edits[1..], now);
    }
  }

  lemma {:induction false} EditsKeepIdentity(d: Draft, edits: seq<Edit>, now: Instant)
    ensures var after := ApplyEdits(d, edits, now);
      after.owner == d.owner && after.receiptId == d.receiptId && after.state == d.state
    decreases |edits|
  {
    if edits != [] {
      var next := ApplyEdit(d, edits[0], now);
      EditsKeepIdentity(if next.Accepted? then next.value else d, edits[1..], now);
    }
  }

  lemma {:induction false} LastOfConcat<T>(a: seq<Edit>, b: seq<Edit>, pick: Edit -> Option<T>)
    ensures Last(a + b, pick) == if Last(b, pick).Some? then Last(b, pick) else Last(a, pick)
  {
    if a == [] {
      assert a + b == b;
    } else {
      assert (a + b)[1..] == a[1..] + b;
      LastOfConcat(a[1..], b, pick);
    }
  }

  /** Confluence: the fields and their provenance do not depend on when the result arrived. */
  lemma ArrivalDoesNotMatter(d: Draft, edits: seq<Edit>, r: RecognitionResult, k: nat, now: Instant)
    requires k <= |edits| && Fits(d, r)
    ensures Outcome(d, edits, r, WithResultAt(d, edits, r, k, now))
  {
    var early, late := edits[..k], edits[k..];
    assert edits == early + late;
    EditsKeepIdentity(d, early, now);
    EditsSetLastValues(d, early, now);
    EditsSetLastValues(ApplyRecognition(ApplyEdits(d, early, now), r, now).value, late, now);
    LastOfConcat(early, late, AmountOf);
    LastOfConcat(early, late, DateOf);
    LastOfConcat(early, late, MerchantOf);
    LastOfConcat(early, late, CategoryOf);
  }

  /**
   The state is not confluent: for a draft that waits, it depends on what the user had supplied
   when the result arrived. It is in review exactly when an amount and a date were known then.
   */
  lemma StateAfterArrival(d: Draft, edits: seq<Edit>, r: RecognitionResult, k: nat, now: Instant)
    requires k <= |edits| && Fits(d, r) && d.state.AwaitingRecognition?
    ensures WithResultAt(d, edits, r, k, now).state.ReadyForReview? <==>
      && (r.total.Some? || d.amount.Set? || Last(edits[..k], AmountOf).Some?)
      && (r.date.Some? || d.date.Set? || Last(edits[..k], DateOf).Some?)
    ensures WithResultAt(d, edits, r, k, now).state in {ReadyForReview, Collecting}
  {
    var mid := ApplyEdits(d, edits[..k], now);
    EditsKeepIdentity(d, edits[..k], now);
    EditsSetLastValues(d, edits[..k], now);
    EditsKeepIdentity(ApplyRecognition(mid, r, now).value, edits[k..], now);
  }

  /** An input on which the state does depend on the order. */
  lemma StateDependsOnArrival()
    ensures
      var d := StartFromReceipt(0, 7, 3, 0).(date := Set(10, Default));
      var r := RecognitionResult(1, 3, 1, 7, None, None, None);
      var edits := [Amount(Money(1250, EUR))];
      && WithResultAt(d, edits, r, 0, 0).state == Collecting
      && WithResultAt(d, edits, r, 1, 0).state == ReadyForReview
  {
    var d := StartFromReceipt(0, 7, 3, 0).(date := Set(10, Default));
    var r := RecognitionResult(1, 3, 1, 7, None, None, None);
    var edits := [Amount(Money(1250, EUR))];
    assert edits[..0] == [] && edits[0..] == edits && edits[..1] == edits && edits[1..] == [];
    StateAfterArrival(d, edits, r, 0, 0);
    StateAfterArrival(d, edits, r, 1, 0);
    assert Last(edits, AmountOf) == Some(Money(1250, EUR)) by { assert Last(edits[1..], AmountOf).None?; }
  }

  // --- the currency answer ---

  /** An amount's number in another currency; None when that currency has too few decimal places for it. */
  function Restated(m: Money, currency: Currency): Option<Money> {
    var restated := ToMoney(Major(m), currency);
    if restated.Accepted? then Some(restated.value) else None
  }

  /** The bot's answer to a currency: the current amount in the new one, as the user's; without an amount, or when it does not fit, nothing. */
  function AnswerCurrency(d: Draft, currency: Currency, now: Instant): Draft {
    if d.amount.Unset? || Restated(d.amount.value, currency).None? then d else
    var edited := SetAmount(d, d.owner, Restated(d.amount.value, currency).value, now);
    if edited.Accepted? then edited.value else d
  }

  /**
   Unlike the other edits, a currency answer restates whatever amount is current, so it can depend on
   when the result arrives. It does not, exactly when recognition leaves the amount alone or the answer
   makes the same of the recognized total as of the amount before.
   */
  lemma CurrencyAnswerCommutesIff(d: Draft, r: RecognitionResult, currency: Currency, now: Instant)
    requires Fits(d, r)
    ensures Fits(AnswerCurrency(d, currency, now), r)
    ensures ApplyRecognition(AnswerCurrency(d, currency, now), r, now).value.amount
         == AnswerCurrency(ApplyRecognition(d, r, now).value, currency, now).amount
      <==> !MayFill(d.amount) || r.total.None?
           || Restated(r.total.value, currency) == if d.amount.Set? then Restated(d.amount.value, currency) else None
  {
  }
}
