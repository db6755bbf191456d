/**
 The bot's side of capture as one turn: a locked conversation and the user's active draft go in,
 the rows to write come out. The worker's delivery of a recognition is the same kind of step.
 */
module CaptureFlow {
  import opened Wrappers
  import opened Amounts
  import opened CaptureDraft
  import opened Conversations
  import opened Receipts
  import opened Expenses

  /** A typed amount, with the currency only when one was typed. */
  datatype TypedAmount = TypedAmount(value: Decimal, currency: Option<Amounts.Currency>)

  /** What each text parser makes of one message; None is its ValueError. */
  datatype Typed = Typed(
    amount: Option<TypedAmount>,
    currency: Option<Amounts.Currency>,
    merchant: Option<string>,
    date: Option<Day>)

  datatype Action =
    | Skip
    | PickCategory(key: string)
    | PickDate(daysAgo: Option<nat>)
    | EditField(field: Option<Awaiting>)
    | ConfirmDraft
    | CancelDraft
    | EnterManually
    | Continue
    | Discard
    | Unknown

  datatype Input =
    | Add
    | CancelCommand
    | Text(typed: Typed)
    | Photo(fileId: string)
    | Press(draftId: Id, action: Action)

  /** Clock, user settings, categories, and ids not used before. */
  datatype Env = Env(
    now: Instant,
    today: Day,
    defaultCurrency: Option<Amounts.Currency>,
    offered: set<string>,
    known: set<string>,
    freshDraft: Id,
    freshReceipt: Id,
    freshExpense: Id)

  /** The rows one turn writes. */
  datatype Turn = Turn(
    conversation: Conversation,
    edited: Option<Draft>,
    started: Option<Draft>,
    received: Option<Receipt>,
    expense: Option<Expense>)

  datatype Pair = Pair(conversation: Conversation, draft: Draft)

  predicate WithinFutureTolerance(date: Day, today: Day) {
    date <= today + 1
  }

  // --- confirmation ---

  datatype Confirmation =
    | Saves(expense: Expense, draft: Draft)
    | NotConfirmable
    | Fails  // an exception: everything rolls back

  /** Confirming a draft that is not confirmed yet. */
  function ConfirmOpen(d: Draft, caller: Id, env: Env): Confirmation {
    if !IsConfirmable(d) then NotConfirmable
    else if !WithinFutureTolerance(d.date.value, env.today) then NotConfirmable
    else
      var expense := FromDraft(d, env.freshExpense, env.now);
      if expense.Rejected? || expense.value.category !in env.known then Fails else
      var confirmed := CaptureDraft.Confirm(d, caller, env.freshExpense, env.now);
      if confirmed.Rejected? then Fails else Saves(expense.value, confirmed.value)
  }

  // --- answering ---

  function ShowReview(c: Conversation, d: Draft, now: Instant): Pair {
    Pair(c.WaitingFor(Nothing, now), d)
  }

  /** Save the edited draft, then ask for the next field or show the review card. */
  function Advance(c: Conversation, d: Draft, next: Awaiting, isDefault: Option<bool>, now: Instant): Pair {
    var c := if isDefault.Some? then c.WithDraft(d.id, c.awaiting, isDefault.value, now) else c;
    var fromReceipt := d.state.Collecting? && d.receiptId.Some?;
    var next := if fromReceipt && next.Merchant? && d.merchant.Set? then Awaiting.Category else next;
    if d.state.Collecting? && !(fromReceipt && next.Category? && d.category.Set?) then
      Pair(c.WaitingFor(next, now), d)
    else
      ShowReview(c, if d.state.Collecting? then d.(state := ReadyForReview, modifiedAt := now) else d, now)
  }

  function OnAmount(c: Conversation, d: Draft, typed: Option<TypedAmount>, env: Env): Result<Pair> {
    if typed.None? then Accepted(Pair(c, d)) else
    var currency := if typed.value.currency.Some? then typed.value.currency else env.defaultCurrency;
    if currency.None? then Accepted(Pair(c, d)) else
    var money := ToMoney(typed.value.value, currency.value);
    if money.Rejected? then Accepted(Pair(c, d)) else
    var edited :- SetAmount(d, d.owner, money.value, env.now);
    Accepted(Advance(c, edited, Awaiting.Merchant, Some(typed.value.currency.None?), env.now))
  }

  /** Re-express the same amount in another currency's precision, or ask for it again. */
  function OnCurrency(c: Conversation, d: Draft, typed: Option<Amounts.Currency>, env: Env): Result<Pair> {
    if typed.None? || d.amount.Unset? then Accepted(Pair(c, d)) else
    var money := ToMoney(Major(d.amount.value), typed.value);
    if money.Rejected? then Accepted(Pair(c.WaitingFor(Awaiting.Amount, env.now), d)) else
    var edited :- SetAmount(d, d.owner, money.value, env.now);
    Accepted(Advance(c, edited, Awaiting.Merchant, Some(false), env.now))
  }

  function OnMerchant(c: Conversation, d: Draft, typed: Option<string>, env: Env): Result<Pair> {
    if typed.None? then Accepted(Pair(c, d)) else
    var edited :- SetMerchant(d, d.owner, typed.value, env.now);
    Accepted(Advance(c, edited, Awaiting.Category, None, env.now))
  }

  function OnDate(c: Conversation, d: Draft, typed: Option<Day>, env: Env): Result<Pair> {
    if typed.None? || !WithinFutureTolerance(typed.value, env.today) then Accepted(Pair(c, d)) else
    var edited :- SetDate(d, d.owner, typed.value, env.now);
    Accepted(Advance(c, edited, Awaiting.Merchant, None, env.now))
  }

  function OnText(c: Conversation, d: Draft, typed: Typed, env: Env): Result<Pair> {
    if d.state.AwaitingRecognition? then Accepted(Pair(c, d)) else
    match c.awaiting
    case Amount => OnAmount(c, d, typed.amount, env)
    case Currency => OnCurrency(c, d, typed.currency, env)
    case Merchant => OnMerchant(c, d, typed.merchant, env)
    case Date => OnDate(c, d, typed.date, env)
    case Category => Accepted(Pair(c, d))
    case Nothing => Accepted(Pair(c, d))
  }

  function OnCategory(c: Conversation, d: Draft, key: string, env: Env): Result<Pair> {
    if key !in env.offered then Accepted(Pair(c, d)) else
    var edited :- SetCategory(d, d.owner, key, env.now);
    Accepted(ShowReview(c, if edited.state.Collecting? then edited.(state := ReadyForReview, modifiedAt := env.now) else edited, env.now))
  }

  /** The buttons that keep the active draft open. */
  function OnButton(c: Conversation, d: Draft, action: Action, env: Env): Result<Pair> {
    match action
    case Skip => if c.awaiting.Merchant? then Accepted(Advance(c, d, Awaiting.Category, None, env.now)) else Accepted(Pair(c, d))
    case PickCategory(key) => if c.awaiting.Category? then OnCategory(c, d, key, env) else Accepted(Pair(c, d))
    case PickDate(daysAgo) =>
      if c.awaiting.Date? && daysAgo.Some? then OnDate(c, d, Some(env.today - daysAgo.value), env) else Accepted(Pair(c, d))
    case EditField(field) =>
      if d.state.ReadyForReview? && field.Some? && !field.value.Nothing? then Accepted(Pair(c.WaitingFor(field.value, env.now), d)) else Accepted(Pair(c, d))
    case EnterManually =>
      if d.state.AwaitingRecognition?
      then Accepted(Pair(c.WaitingFor(Awaiting.Amount, env.now), ContinueManually(d, env.now)))
      else Accepted(Pair(c, d))
    case Continue => if c.pending.Some? then Accepted(Pair(c.WithPending(None, env.now), d)) else Accepted(Pair(c, d))
    case _ => Accepted(Pair(c, d))
  }

  // --- starting and ending ---

  function OpenManual(c: Conversation, user: Id, env: Env): Pair {
    var d := Start(env.freshDraft, user, TelegramManual, env.now);
    var d := Touch(d.(date := Set(env.today, Default)), env.now);
    Pair(c.WithDraft(d.id, Awaiting.Amount, false, env.now), d)
  }

  function OpenReceipt(c: Conversation, user: Id, env: Env): Pair {
    var d := StartFromReceipt(env.freshDraft, user, env.freshReceipt, env.now);
    var d := Touch(d.(date := Set(env.today, Default)), env.now);
    Pair(c.WithDraft(d.id, Nothing, false, env.now), d)
  }

  function Opens(c: Conversation, closed: Option<Draft>, user: Id, fileId: Option<string>, env: Env): Turn {
    var p := if fileId.Some? then OpenReceipt(c, user, env) else OpenManual(c, user, env);
    Turn(p.conversation, closed, Some(p.draft),
         if fileId.Some? then Some(Receive(env.freshReceipt, user, fileId.value, env.now)) else None, None)
  }

  function Edits(p: Result<Pair>): Result<Turn> {
    if p.Accepted? then Accepted(Turn(p.value.conversation, Some(p.value.draft), None, None, None)) else Rejected
  }

  function Cancels(d: Draft, env: Env): Result<Turn> {
    var closed :- CaptureDraft.Cancel(d, d.owner, env.now);
    Accepted(Turn(Idle(env.now), Some(closed), None, None, None))
  }

  /** A button on the active draft's own card. */
  function OnDraftAction(c: Conversation, d: Draft, action: Action, user: Id, env: Env): Result<Turn> {
    match action
    case ConfirmDraft =>
      if !d.state.ReadyForReview? then Accepted(Turn(c, None, None, None, None)) else (
      match ConfirmOpen(d, user, env)
      case Saves(expense, draft) => Accepted(Turn(Idle(env.now), Some(draft), None, None, Some(expense)))
      case NotConfirmable => Accepted(Turn(c, None, None, None, None))
      case Fails => Rejected)
    case CancelDraft => Cancels(d, env)
    case Discard =>
      var closed :- CaptureDraft.Cancel(d, d.owner, env.now);
      Accepted(Opens(Idle(env.now), Some(closed), user, c.pending, env))
    case _ => Edits(OnButton(c, d, action, env))
  }

  /** A conversation whose draft is closed or gone is put to rest before anything else. */
  function Settle(c: Conversation, now: Instant): Conversation {
    if c.active.None? then c else Idle(now)
  }

  /** One update of one user: `c` is the locked conversation, `active` its draft while still open. */
  function Respond(c: Conversation, active: Option<Draft>, input: Input, user: Id, env: Env): Result<Turn> {
    match active
    case None => (
      match input
      case Add => Accepted(Opens(c, None, user, None, env))
      case Photo(fileId) => Accepted(Opens(c, None, user, Some(fileId), env))
      case _ => Accepted(Turn(Settle(c, env.now), None, None, None, None)))
    case Some(d) => (
      match input
      case Add => Accepted(Turn(if c.pending.Some? then c.WithPending(None, env.now) else c, None, None, None, None))
      case Photo(fileId) => Accepted(Turn(c.WithPending(Some(fileId), env.now), None, None, None, None))
      case CancelCommand => Cancels(d, env)
      case Text(typed) => Edits(OnText(c, d, typed, env))
      case Press(draftId, action) =>
        if draftId != d.id then Accepted(Turn(c, None, None, None, None)) else OnDraftAction(c, d, action, user, env))
  }

  // --- the worker's delivery ---

  predicate SameFields(a: Draft, b: Draft) {
    ValueOf(a.amount) == ValueOf(b.amount) && ValueOf(a.date) == ValueOf(b.date) && ValueOf(a.merchant) == ValueOf(b.merchant) && ValueOf(a.category) == ValueOf(b.category)
  }

  function AfterLateResult(c: Conversation, before: Draft, d: Draft, now: Instant): Pair {
    if c.active != Some(d.id) || c.pending.Some? || SameFields(before, d) then Pair(c, d)
    else if d.state.Collecting? && c.awaiting.Amount? && d.amount.Set?
    then Advance(c, d, Awaiting.Merchant, Some(false), now)
    else Pair(c, d)
  }

  /** What finishing an attempt does to the receipt's open draft and its owner's conversation. */
  function Deliver(c: Conversation, d: Draft, result: Option<RecognitionResult>, chat: bool, now: Instant): Result<Pair> {
    var wasWaiting := d.state.AwaitingRecognition?;
    var after :- if result.Some? then ApplyRecognition(d, result.value, now) else Accepted(ContinueManually(d, now));
    if result.Some? && !wasWaiting then
      Accepted(if chat then AfterLateResult(c, d, after, now) else Pair(c, after))
    else if c.active == Some(d.id) && wasWaiting && !(result.Some? && after.state.ReadyForReview?) then
      Accepted(Pair(c.WaitingFor(Awaiting.Amount, now), after))
    else
      Accepted(Pair(c, after))
  }
}
