/**
 The capture tables and every atomic step on them: bot updates, web requests, worker steps,
 retention statements and crash points. Locks and conditional updates make each step atomic;
 SKIP LOCKED is a free choice of rows, and fresh ids are ids not in use.
 */
module CaptureSystem {
  import opened Wrappers
  import opened Amounts
  import opened CaptureDraft
  import opened Conversations
  import opened Receipts
  import opened Expenses
  import opened CaptureFlow

  datatype Tables = Tables(
    drafts: map<Id, Draft>,
    receipts: map<Id, Receipt>,
    results: map<Id, RecognitionResult>,
    conversations: map<Id, Conversation>,
    expenses: map<Id, Expense>,
    ledger: map<int, Instant>,
    images: set<Id>,
    attempts: map<Id, Id>,  // every attempt id handed out so far, and the receipt it is for
    pending: map<int, Id>)  // updates between their two commits, and the user of each

  const EMPTY := Tables(map[], map[], map[], map[], map[], map[], {}, map[], map[])

  /** The values kept from a recognizer's output; a recognized total is positive. */
  datatype Values = Values(merchant: Option<string>, date: Option<Day>, total: Option<Money>)

  /** A web edit: absent fields are unchanged; a present one may fail to parse. */
  datatype DraftEdit = DraftEdit(
    amount: Option<Money>,
    date: Option<Result<Day>>,
    merchant: Option<Result<string>>,
    category: Option<string>,
    note: Option<string>)

  datatype Step =
    | Update(update: int, user: Id, input: Input, env: Env)
    | FirstCommit(update: int, user: Id, draft: Id, env: Env)
    | SecondCommit(update: int, now: Instant)
    | OtherUpdate(update: int, now: Instant)
    | WebStart(user: Id, env: Env)
    | WebEdit(user: Id, draft: Id, edit: DraftEdit, now: Instant)
    | WebReady(user: Id, draft: Id, now: Instant)
    | WebCancel(user: Id, draft: Id, now: Instant)
    | WebConfirm(user: Id, draft: Id, env: Env)
    | ClaimReceipt(receipt: Id, attempt: Id, now: Instant, lease: int)
    | StoreImage(receipt: Id, attempt: Id)
    | FinishReceipt(receipt: Id, attempt: Id, output: Option<Values>, chat: bool, resultId: Id, now: Instant)
    | ClaimNotices(batch: set<Id>, now: Instant, before: Instant)
    | ExpireDrafts(batch: set<Id>, cutoff: Instant, now: Instant)
    | RemoveReceiptData(batch: set<Id>, cutoff: Instant, now: Instant)
    | PruneLedger(updates: set<int>, cutoff: Instant)
    | SetExpenseDeleted(user: Id, expense: Id, deleted: bool, now: Instant)
    | Unlink(user: Id)

  // --- reading ---

  /** The user's row, created when missing. */
  function Lock(t: Tables, user: Id, now: Instant): Conversation {
    if user in t.conversations then t.conversations[user] else Idle(now)
  }

  function OwnedDraft(t: Tables, user: Id, id: Id): Option<Draft> {
    if id in t.drafts && t.drafts[id].owner == user then Some(t.drafts[id]) else None
  }

  function ActiveDraft(t: Tables, user: Id, c: Conversation): Option<Draft> {
    var d := if c.active.Some? then OwnedDraft(t, user, c.active.value) else None;
    if d.Some? && Open(d.value.state) then d else None
  }

  ghost predicate HasDraft(t: Tables, receipt: Id, d: Id) {
    d in t.drafts && t.drafts[d].receiptId == Some(receipt)
  }

  ghost function DraftOfReceipt(t: Tables, receipt: Id): (r: Option<Id>)
    ensures r.Some? ==> HasDraft(t, receipt, r.value)
    ensures r.None? ==> forall d :: !HasDraft(t, receipt, d)
  {
    if exists d :: HasDraft(t, receipt, d) then (var d :| HasDraft(t, receipt, d); Some(d)) else None
  }

  // --- bot ---

  function PutDraft(drafts: map<Id, Draft>, d: Option<Draft>): map<Id, Draft> {
    if d.Some? then drafts[d.value.id := d.value] else drafts
  }

  function WithDraft(t: Tables, d: Draft): Tables {
    t.(drafts := t.drafts[d.id := d])
  }

  function Write(t: Tables, user: Id, turn: Turn): Tables {
    t.(drafts := PutDraft(PutDraft(t.drafts, turn.edited), turn.started),
       conversations := t.conversations[user := turn.conversation],
       receipts := if turn.received.Some? then t.receipts[turn.received.value.id := turn.received.value] else t.receipts,
       expenses := if turn.expense.Some? then t.expenses[turn.expense.value.id := turn.expense.value] else t.expenses)
  }

  function Reply(t: Tables, user: Id, input: Input, env: Env): Result<Turn> {
    var c := Lock(t, user, env.now);
    Respond(c, ActiveDraft(t, user, c), input, user, env)
  }

  /** The update id commits with the work it caused; an exception rolls both back. */
  function UpdateStep(t: Tables, update: int, user: Id, input: Input, env: Env): Tables {
    var turn := Reply(t, user, input, env);
    if update in t.ledger || turn.Rejected? then t
    else Write(t.(ledger := t.ledger[update := env.now]), user, turn.value)
  }

  /**
   Confirming commits the expense, the draft and the update id before the conversation is cleared. That
   commit releases the conversation, so other updates of the user may come before the second one does.
   */
  function FirstCommitStep(t: Tables, update: int, user: Id, draft: Id, env: Env): Tables {
    var turn := Reply(t, user, Press(draft, ConfirmDraft), env);
    if update in t.ledger || turn.Rejected? || turn.value.expense.None? then t
    else Write(t.(ledger := t.ledger[update := env.now]), user, turn.value.(conversation := Lock(t, user, env.now)))
  }

  /** An update whose first commit succeeded has its second one still before it; it may crash and never make it. */
  function Begun(t: Tables, t': Tables, update: int, user: Id): Tables {
    if update in t'.ledger && update !in t.ledger then t'.(pending := t'.pending[update := user]) else t'
  }

  /** The second commit of a confirmation writes the idle conversation, whatever has become of the row meanwhile. */
  function SecondCommitStep(t: Tables, update: int, now: Instant): Tables {
    if update !in t.pending then t
    else t.(conversations := t.conversations[t.pending[update] := Idle(now)], pending := t.pending - {update})
  }

  // --- web ---

  function EditAll(d: Draft, caller: Id, edit: DraftEdit, now: Instant): Result<Draft> {
    if edit.amount.Some? && !Representable(edit.amount.value) then Rejected else
    var d :- if edit.amount.Some? then SetAmount(d, caller, edit.amount.value, now) else Accepted(d);
    if edit.date.Some? && edit.date.value.Rejected? then Rejected else
    var d :- if edit.date.Some? then SetDate(d, caller, edit.date.value.value, now) else Accepted(d);
    if edit.merchant.Some? && edit.merchant.value.Rejected? then Rejected else
    var d :- if edit.merchant.Some? then SetMerchant(d, caller, edit.merchant.value.value, now) else Accepted(d);
    var d :- if edit.category.Some? then SetCategory(d, caller, edit.category.value, now) else Accepted(d);
    if edit.note.Some? then SetNote(d, caller, edit.note, now) else Accepted(d)
  }

  /** A web request on one draft: nothing is written when the draft is not the caller's or the change is refused. */
  function WebStep(t: Tables, user: Id, id: Id, change: Draft -> Result<Draft>): Tables {
    var d := OwnedDraft(t, user, id);
    if d.None? || change(d.value).Rejected? then t else WithDraft(t, change(d.value).value)
  }

  datatype ConfirmReply = Denied | Refused | Raised | Returned(expense: Expense)

  function ConfirmOutcome(t: Tables, user: Id, id: Id, env: Env): (ConfirmReply, Tables) {
    var d := OwnedDraft(t, user, id);
    if d.None? then (Denied, t)
    else if d.value.state.Confirmed? then
      if d.value.expenseId.None? || d.value.expenseId.value !in t.expenses then (Refused, t) else
      var e := t.expenses[d.value.expenseId.value];
      (if e.owner == user && IsActive(e) then Returned(e) else Refused, t)
    else match ConfirmOpen(d.value, user, env)
      case NotConfirmable => (Refused, t)
      case Fails => (Raised, t)
      case Saves(expense, draft) =>
        (Returned(expense), WithDraft(t, draft).(expenses := t.expenses[expense.id := expense]))
  }

  function ExpenseStep(t: Tables, user: Id, id: Id, deleted: bool, now: Instant): Tables {
    if id !in t.expenses || t.expenses[id].owner != user then t else
    var e := t.expenses[id];
    t.(expenses := t.expenses[id := if deleted then Delete(e, now) else Restore(e, now)])
  }

  // --- worker ---

  function ClaimStep(t: Tables, id: Id, attempt: Id, now: Instant, lease: int): Tables {
    if id !in t.receipts then t else
    var claimed := Claim(t.receipts[id], attempt, now, lease);
    if claimed.Rejected? then t
    else t.(receipts := t.receipts[id := claimed.value], attempts := t.attempts[attempt := id])
  }

  /** The attempt that finishes, if it is still the receipt's current one. */
  predicate HoldsAttempt(t: Tables, id: Id, attempt: Id) {
    id in t.receipts && IsCurrent(t.receipts[id], attempt)
  }

  function ResultOf(r: Receipt, attempt: Id, output: Option<Values>, resultId: Id): Option<RecognitionResult> {
    if output.None? then None
    else Some(RecognitionResult(resultId, r.id, attempt, r.owner, output.value.merchant, output.value.date, output.value.total))
  }

  /** The receipt and its result, whatever became of the draft. */
  function CloseAttempt(t: Tables, id: Id, attempt: Id, output: Option<Values>, resultId: Id, now: Instant): Tables
    requires HoldsAttempt(t, id, attempt)
  {
    var r := t.receipts[id];
    var result := ResultOf(r, attempt, output, resultId);
    t.(receipts := t.receipts[id := Receipts.Finish(r, attempt, output.Some?, now).value],
       results := if result.Some? then t.results[resultId := result.value] else t.results,
       conversations := t.conversations[r.owner := Lock(t, r.owner, now)])
  }

  ghost function FinishStep(t: Tables, id: Id, attempt: Id, output: Option<Values>, chat: bool, resultId: Id, now: Instant): Tables {
    if !HoldsAttempt(t, id, attempt) then t else
    var closed := CloseAttempt(t, id, attempt, output, resultId, now);
    var d := DraftOfReceipt(t, id);
    if d.None? || !Open(t.drafts[d.value].state) then closed else
    var owner := t.receipts[id].owner;
    DeliveredTo(t, closed, owner,
                Deliver(Lock(t, owner, now), t.drafts[d.value], ResultOf(t.receipts[id], attempt, output, resultId), chat, now))
  }

  /** The delivery is written with the closed attempt; a delivery that fails takes everything back. */
  function DeliveredTo(t: Tables, closed: Tables, owner: Id, p: Result<Pair>): Tables {
    if p.Rejected? then t
    else WithDraft(closed, p.value.draft).(conversations := t.conversations[owner := p.value.conversation])
  }

  predicate Overdue(t: Tables, id: Id, before: Instant) {
    && id in t.receipts
    && (t.receipts[id].state.Queued? || t.receipts[id].state.Processing?)
    && t.receipts[id].imageRemovedAt.None? && t.receipts[id].noticeSentAt.None?
    && t.receipts[id].createdAt <= before
  }

  function NoticeStep(t: Tables, batch: set<Id>, now: Instant, before: Instant): Tables {
    var owners := set id | id in batch && Overdue(t, id, before) :: t.receipts[id].owner;
    t.(receipts := map id | id in t.receipts ::
         if id in batch && Overdue(t, id, before) then t.receipts[id].(noticeSentAt := Some(now)) else t.receipts[id],
       conversations := t.conversations + map u | u in owners :: Lock(t, u, now))
  }

  // --- retention and unlinking ---

  predicate Expirable(t: Tables, id: Id, batch: set<Id>, cutoff: Instant) {
    id in batch && id in t.drafts && Open(t.drafts[id].state) && t.drafts[id].modifiedAt <= cutoff
  }

  /** Expire idle open drafts and release the conversations that point at them. */
  function ExpireStep(t: Tables, batch: set<Id>, cutoff: Instant, now: Instant): Tables {
    t.(drafts := map id | id in t.drafts ::
         if Expirable(t, id, batch, cutoff) then Expire(t.drafts[id], now).value else t.drafts[id],
       conversations := map u | u in t.conversations ::
         var c := t.conversations[u];
         if c.active.Some? && Expirable(t, c.active.value, batch, cutoff)
         then c.(active := None, awaiting := Nothing, pending := None, updatedAt := now) else c)
  }

  function FinishedAt(d: Draft): Instant {
    d.confirmedAt.GetOr(d.modifiedAt)
  }

  ghost predicate Removable(t: Tables, id: Id, batch: set<Id>, cutoff: Instant) {
    && id in batch && id in t.receipts
    && t.receipts[id].imageRemovedAt.None? && !t.receipts[id].state.Processing?
    && exists d :: HasDraft(t, id, d) && !Open(t.drafts[d].state) && FinishedAt(t.drafts[d]) <= cutoff
  }

  /** Images and results go; the receipt row stays and drafts forget the deleted result. */
  ghost function RemoveStep(t: Tables, batch: set<Id>, cutoff: Instant, now: Instant): Tables {
    var gone := set k | k in t.results && Removable(t, t.results[k].receiptId, batch, cutoff);
    t.(receipts := map id | id in t.receipts ::
         if Removable(t, id, batch, cutoff) then RemoveImage(t.receipts[id], now) else t.receipts[id],
       results := t.results - gone,
       drafts := map id | id in t.drafts ::
         var d := t.drafts[id];
         if d.resultId.Some? && d.resultId.value in gone then d.(resultId := None) else d,
       images := set id | id in t.images && !Removable(t, id, batch, cutoff))
  }

  function PruneStep(t: Tables, updates: set<int>, cutoff: Instant): Tables {
    t.(ledger := map u | u in t.ledger && !(u in updates && t.ledger[u] <= cutoff) :: t.ledger[u])
  }

  // --- account deletion ---

  /** What deleting a user's account leaves: every row of the others, and what belongs to nobody. */
  function WithoutAccount(t: Tables, user: Id): Tables {
    t.(drafts := map d | d in t.drafts && t.drafts[d].owner != user :: t.drafts[d],
       receipts := map r | r in t.receipts && t.receipts[r].owner != user :: t.receipts[r],
       results := map k | k in t.results && t.results[k].owner != user :: t.results[k],
       conversations := t.conversations - {user},
       expenses := map e | e in t.expenses && t.expenses[e].owner != user :: t.expenses[e],
       images := (set r | r in t.images && !(r in t.receipts && t.receipts[r].owner == user)),
       pending := map u | u in t.pending && t.pending[u] != user :: t.pending[u])
  }

  // --- steps ---

  /**
   Ids and attempts a step introduces are new, an image is stored by a worker that once claimed the
   receipt, though its attempt may be over by now, and a recognized total is positive.
   */
  predicate Enabled(t: Tables, a: Step) {
    match a
    case Update(_, _, _, env) => FreshIds(t, env)
    case FirstCommit(_, _, _, env) => FreshIds(t, env)
    case SecondCommit(update, _) => update in t.pending
    case WebStart(_, env) => FreshIds(t, env)
    case WebConfirm(_, _, env) => FreshIds(t, env)
    case ClaimReceipt(_, attempt, _, _) => attempt !in t.attempts
    case StoreImage(receipt, attempt) => attempt in t.attempts && t.attempts[attempt] == receipt
    case FinishReceipt(_, _, output, _, resultId, _) =>
      resultId !in t.results && (output.Some? && output.value.total.Some? ==> output.value.total.value.minorUnits > 0)
    case _ => true
  }

  predicate FreshIds(t: Tables, env: Env) {
    env.freshDraft !in t.drafts && env.freshReceipt !in t.receipts && env.freshExpense !in t.expenses
  }

  ghost function Next(t: Tables, a: Step): Tables {
    match a
    case Update(update, user, input, env) => UpdateStep(t, update, user, input, env)
    case FirstCommit(update, user, draft, env) => Begun(t, FirstCommitStep(t, update, user, draft, env), update, user)
    case SecondCommit(update, now) => SecondCommitStep(t, update, now)
    case OtherUpdate(update, now) => if update in t.ledger then t else t.(ledger := t.ledger[update := now])
    case WebStart(user, env) => WithDraft(t, Start(env.freshDraft, user, WebManual, env.now))
    case WebEdit(user, draft, edit, now) => WebStep(t, user, draft, d => EditAll(d, user, edit, now))
    case WebReady(user, draft, now) => WebStep(t, user, draft, d => MarkReady(d, user, now))
    case WebCancel(user, draft, now) => WebStep(t, user, draft, d => CaptureDraft.Cancel(d, user, now))
    case WebConfirm(user, draft, env) => ConfirmOutcome(t, user, draft, env).1
    case ClaimReceipt(receipt, attempt, now, lease) => ClaimStep(t, receipt, attempt, now, lease)
    case StoreImage(receipt, _) => if receipt in t.receipts then t.(images := t.images + {receipt}) else t
    case FinishReceipt(receipt, attempt, output, chat, resultId, now) =>
      FinishStep(t, receipt, attempt, output, chat, resultId, now)
    case ClaimNotices(batch, now, before) => NoticeStep(t, batch, now, before)
    case ExpireDrafts(batch, cutoff, now) => ExpireStep(t, batch, cutoff, now)
    case RemoveReceiptData(batch, cutoff, now) => RemoveStep(t, batch, cutoff, now)
    case PruneLedger(updates, cutoff) => PruneStep(t, updates, cutoff)
    case SetExpenseDeleted(user, expense, deleted, now) => ExpenseStep(t, user, expense, deleted, now)
    case Unlink(user) => t.(conversations := t.conversations - {user})
  }
}
