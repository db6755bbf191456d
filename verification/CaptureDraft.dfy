/**
 The capture draft: one unconfirmed expense, its provenance per field, and every transition
 between its states. A transition returns a new draft or is rejected; drafts are values.
 */
module CaptureDraft {
  import opened Wrappers
  import opened Amounts

  type Id = nat
  type Day = int
  type Instant = int

  const UNCATEGORIZED_KEY := "uncategorized"

  datatype FieldSource = Recognition | User | Default

  /** A value and where it came from; the table constrains both to be present together. */
  datatype Field<+T> = Unset | Set(value: T, source: FieldSource)

  datatype DraftState = Collecting | AwaitingRecognition | ReadyForReview | Confirmed | Cancelled | Expired

  datatype CaptureSource = TelegramManual | TelegramReceipt | WebManual

  datatype Draft = Draft(
    id: Id,
    owner: Id,
    source: CaptureSource,
    state: DraftState,
    revision: nat,
    amount: Field<Money>,
    date: Field<Day>,
    merchant: Field<string>,
    category: Field<string>,
    note: Option<string>,
    expenseId: Option<Id>,
    receiptId: Option<Id>,
    resultId: Option<Id>,
    createdAt: Instant,
    modifiedAt: Instant,
    confirmedAt: Option<Instant>)

  /** An immutable snapshot of the values kept from one recognition attempt. */
  datatype RecognitionResult = RecognitionResult(
    id: Id,
    receiptId: Id,
    attemptId: Id,
    owner: Id,
    merchant: Option<string>,
    date: Option<Day>,
    total: Option<Money>)

  predicate Open(state: DraftState) {
    state.Collecting? || state.AwaitingRecognition? || state.ReadyForReview?
  }

  /** Fields a recognition result may fill: never one the user has supplied. */
  predicate MayFill<T>(f: Field<T>) {
    f.Unset? || f.source.Default?
  }

  /** A non-empty key without surrounding space or upper-case letters (ASCII). */
  predicate StableKey(key: string) {
    && key != ""
    && key[0] != ' ' && key[|key| - 1] != ' '
    && forall i | 0 <= i < |key| :: !('A' <= key[i] <= 'Z')
  }

  function Start(id: Id, owner: Id, source: CaptureSource, now: Instant): Draft {
    Draft(id, owner, source, Collecting, 0, Unset, Unset, Unset, Unset, None, None, None, None, now, now, None)
  }

  function StartFromReceipt(id: Id, owner: Id, receiptId: Id, now: Instant): Draft {
    Start(id, owner, TelegramReceipt, now).(state := AwaitingRecognition, receiptId := Some(receiptId))
  }

  function Touch(d: Draft, now: Instant): Draft {
    d.(revision := d.revision + 1, modifiedAt := now)
  }

  predicate MayEdit(d: Draft, caller: Id, source: FieldSource) {
    caller == d.owner && Open(d.state) && !source.Recognition?
  }

  function SetAmount(d: Draft, caller: Id, amount: Money, now: Instant, source: FieldSource := User): Result<Draft> {
    if MayEdit(d, caller, source) then Accepted(Touch(d.(amount := Set(amount, source)), now)) else Rejected
  }

  function SetDate(d: Draft, caller: Id, date: Day, now: Instant, source: FieldSource := User): Result<Draft> {
    if MayEdit(d, caller, source) then Accepted(Touch(d.(date := Set(date, source)), now)) else Rejected
  }

  function SetMerchant(d: Draft, caller: Id, merchant: string, now: Instant, source: FieldSource := User): Result<Draft> {
    if MayEdit(d, caller, source) then Accepted(Touch(d.(merchant := Set(merchant, source)), now)) else Rejected
  }

  function SetCategory(d: Draft, caller: Id, key: string, now: Instant, source: FieldSource := User): Result<Draft> {
    if MayEdit(d, caller, source) && StableKey(key)
    then Accepted(Touch(d.(category := Set(key, source)), now))
    else Rejected
  }

  function SetNote(d: Draft, caller: Id, note: Option<string>, now: Instant): Result<Draft> {
    if caller == d.owner && Open(d.state) then Accepted(Touch(d.(note := note), now)) else Rejected
  }

  function MarkReady(d: Draft, caller: Id, now: Instant): Result<Draft> {
    if caller == d.owner && d.state.Collecting?
    then Accepted(d.(state := ReadyForReview, modifiedAt := now))
    else Rejected
  }

  function ContinueManually(d: Draft, now: Instant): Draft {
    if d.state.AwaitingRecognition? then d.(state := Collecting, modifiedAt := now) else d
  }

  predicate IsConfirmable(d: Draft) {
    d.state.ReadyForReview? && d.amount.Set? && d.date.Set?
  }

  function Confirm(d: Draft, caller: Id, expenseId: Id, now: Instant): Result<Draft> {
    if caller == d.owner && IsConfirmable(d)
    then Accepted(d.(state := Confirmed, expenseId := Some(expenseId), confirmedAt := Some(now), modifiedAt := now))
    else Rejected
  }

  function Cancel(d: Draft, caller: Id, now: Instant): Result<Draft> {
    if caller == d.owner && Open(d.state) then Accepted(d.(state := Cancelled, modifiedAt := now)) else Rejected
  }

  function Expire(d: Draft, now: Instant): Result<Draft> {
    if Open(d.state) then Accepted(d.(state := Expired, modifiedAt := now)) else Rejected
  }

  /** What a recognized value does to one field. */
  function Fill<T>(f: Field<T>, recognized: Option<T>): Field<T> {
    if recognized.Some? && MayFill(f) then Set(recognized.value, Recognition) else f
  }

  /** The category proposed when no category is set. */
  function Propose(f: Field<string>, fallback: string): Field<string> {
    if f.Unset? then Set(fallback, Default) else f
  }

  /** Fill only empty or defaulted fields; a draft still waiting moves on. */
  function ApplyRecognition(d: Draft, result: RecognitionResult, now: Instant): Result<Draft> {
    if result.owner != d.owner || Some(result.receiptId) != d.receiptId || !Open(d.state) then Rejected else
    var filled := d.(
        amount := Fill(d.amount, result.total),
        date := Fill(d.date, result.date),
        merchant := Fill(d.merchant, result.merchant),
        category := Propose(d.category, UNCATEGORIZED_KEY));
    var state :=
      if !d.state.AwaitingRecognition? then d.state
      else if filled.amount.Set? && filled.date.Set? then ReadyForReview
      else Collecting;
    Accepted(Touch(filled.(state := state, resultId := Some(result.id)), now))
  }
}
