/** What one turn, or one delivery, keeps about a conversation and its draft. */
module CaptureFlowProofs {
  import opened Wrappers
  import opened Amounts
  import opened CaptureDraft
  import opened Conversations
  import opened Receipts
  import opened Expenses
  import opened CaptureFlow
  import Confluence = DraftConfluence

  /** The only way a draft row may change: closed drafts are frozen, and no step leads backwards. */
  predicate Evolves(a: Draft, b: Draft) {
    && a.id == b.id && a.owner == b.owner && a.source == b.source
    && a.receiptId == b.receiptId && a.createdAt == b.createdAt
    && (!Open(a.state) ==> b == a.(resultId := b.resultId) && b.resultId in {a.resultId, None})
    && (b.state.AwaitingRecognition? ==> a.state.AwaitingRecognition?)
    && (b.state.Collecting? ==> a.state.Collecting? || a.state.AwaitingRecognition?)
    && (a.date.Set? ==> b.date.Set?)
    && (a.amount.Set? ==> b.amount.Set?)
    && (b.state.Confirmed? <==> b.expenseId.Some?)
    && (b.state.Confirmed? <==> b.confirmedAt.Some?)
  }

  predicate DraftRowOk(d: Draft) {
    && (d.state.Confirmed? <==> d.expenseId.Some?)
    && (d.state.Confirmed? <==> d.confirmedAt.Some?)
    && (d.source.TelegramReceipt? <==> d.receiptId.Some?)
    && (d.state.AwaitingRecognition? ==> d.source.TelegramReceipt?)
    && (!d.source.WebManual? ==> d.date.Set?)
  }

  /** While recognition runs the bot asks nothing; while collecting it asks for exactly what is missing. */
  predicate PairOk(c: Conversation, d: Draft) {
    && (d.state.AwaitingRecognition? ==> c.awaiting.Nothing?)
    && (d.state.Collecting? ==> c.awaiting.Amount? || c.awaiting.Merchant? || c.awaiting.Category?)
    && (d.state.Collecting? && !c.awaiting.Amount? ==> d.amount.Set?)
  }

  /** A draft in review can be confirmed as soon as its date is acceptable. */
  predicate Complete(d: Draft) {
    d.state.ReadyForReview? ==> d.amount.Set? && d.date.Set?
  }

  /** Answers still to come before review: amount, merchant, category. */
  function Rank(c: Conversation, d: Draft): nat {
    match d.state
    case AwaitingRecognition => 3
    case Collecting => (match c.awaiting case Merchant => 2 case Category => 1 case _ => 3)
    case _ => 0
  }

  /** `input` answers the question asked about a collecting draft, and the answer is usable. */
  predicate IsAnswer(c: Conversation, d: Draft, input: Input, env: Env) {
    d.state.Collecting? &&
    match input
    case Text(typed) =>
      (match c.awaiting
       case Amount => typed.amount.Some?
         && (var cur := if typed.amount.value.currency.Some? then typed.amount.value.currency else env.defaultCurrency;
             cur.Some? && ToMoney(typed.amount.value.value, cur.value).Accepted?)
       case Merchant => typed.merchant.Some?
       case _ => false)
    case Press(id, Skip) => id == d.id && c.awaiting.Merchant?
    case Press(id, PickCategory(key)) => id == d.id && c.awaiting.Category? && key in env.offered && StableKey(key)
    case _ => false
  }

  /** The user's open draft after a turn, if there is one. */
  function Current(active: Option<Draft>, turn: Turn): Option<Draft> {
    if turn.started.Some? then turn.started else if turn.edited.Some? then turn.edited else active
  }

  /** `e` is the new expense of the confirmed draft `d`, with all of its values. */
  predicate SavedAs(d: Draft, e: Expense) {
    && d.state.Confirmed? && d.expenseId == Some(e.id)
    && e.draftId == d.id && e.owner == d.owner && e.receiptId == d.receiptId && e.source == d.source
    && IsActive(e)
    && d.amount.Set? && e.money == d.amount.value && e.money.minorUnits > 0
    && d.date.Set? && e.date == d.date.value
    && e.merchant == ValueOf(d.merchant) && e.note == d.note
    && (if d.category.Set? then e.category == d.category.value else e.category == UNCATEGORIZED_KEY)
  }

  /** Confirming takes a draft in review and changes none of its values. */
  predicate OnlyConfirmed(a: Draft, b: Draft) {
    && a.state.ReadyForReview?
    && b == a.(state := Confirmed, expenseId := b.expenseId, confirmedAt := b.confirmedAt, modifiedAt := b.modifiedAt)
  }

  predicate Fresh(d: Draft, user: Id, env: Env) {
    && d.id == env.freshDraft && d.owner == user && !d.source.WebManual?
    && DraftRowOk(d) && d.expenseId.None? && d.resultId.None?
    && (d.receiptId.Some? ==> d.receiptId.value == env.freshReceipt)
    && (d.state.AwaitingRecognition? || d.state.Collecting?)
  }

  /** Everything the rest of the system relies on about one bot turn. */
  predicate SoundTurn(c: Conversation, active: Option<Draft>, user: Id, env: Env, turn: Turn) {
    var current := Current(active, turn);
    && turn.conversation.Valid()
    && (turn.edited.Some? ==> active.Some? && Evolves(active.value, turn.edited.value))
    && (turn.started.Some? ==>
          && Fresh(turn.started.value, user, env)
          && (active.Some? ==> turn.edited.Some? && !Open(turn.edited.value.state)))
    && (turn.received.Some? ==>
          && turn.started.Some? && turn.started.value.receiptId == Some(turn.received.value.id)
          && turn.received.value.owner == user && turn.received.value.state.Queued? && ReceiptRowOk(turn.received.value)
          && turn.received.value.imageRemovedAt.None? && turn.received.value.id == env.freshReceipt)
    && (turn.started.Some? && turn.started.value.receiptId.Some? ==> turn.received.Some?)
    && (turn.expense.Some? ==>
          && turn.edited.Some? && SavedAs(turn.edited.value, turn.expense.value)
          && turn.expense.value.id == env.freshExpense)
    && (turn.edited.Some? && turn.edited.value.state.Confirmed? ==> turn.expense.Some? && OnlyConfirmed(active.value, turn.edited.value))
    && (current.Some? && Open(current.value.state) ==>
          turn.conversation.active == Some(current.value.id) && PairOk(turn.conversation, current.value))
    && (current.None? || !Open(current.value.state) ==> turn.conversation.active.None?)
  }

  predicate Ready(c: Conversation, active: Option<Draft>, user: Id) {
    && c.Valid()
    && (active.Some? ==>
          && c.active == Some(active.value.id) && active.value.owner == user && Open(active.value.state)
          && !active.value.source.WebManual? && DraftRowOk(active.value) && PairOk(c, active.value))
  }

  lemma AdvanceSteps(c: Conversation, d: Draft, next: Awaiting, isDefault: Option<bool>, now: Instant)
    requires c.Valid() && c.active == Some(d.id) && Open(d.state) && DraftRowOk(d) && !d.state.AwaitingRecognition?
    requires d.state.Collecting? ==> next in {Awaiting.Merchant, Awaiting.Category} && d.amount.Set?
    ensures var p := Advance(c, d, next, isDefault, now);
      && p.conversation.Valid() && p.conversation.active == Some(d.id)
      && Evolves(d, p.draft) && Open(p.draft.state) && DraftRowOk(p.draft) && PairOk(p.conversation, p.draft)
      && (d.state.Collecting? ==> Complete(p.draft))
      && (d.state.Collecting? ==> Rank(p.conversation, p.draft) <= if next.Merchant? then 2 else 1)
      && (!d.state.Collecting? ==> p.draft == d)
  {
  }

  /** The pair an edit of the active draft leaves behind. */
  predicate SoundPair(d: Draft, p: Pair) {
    && p.conversation.Valid() && p.conversation.active == Some(d.id)
    && Evolves(d, p.draft) && Open(p.draft.state) && PairOk(p.conversation, p.draft)
    && (Complete(d) ==> Complete(p.draft))
  }

  lemma TextIsSound(c: Conversation, d: Draft, typed: Typed, user: Id, env: Env)
    requires Ready(c, Some(d), user)
    ensures var r := OnText(c, d, typed, env);
      && r.Accepted?
      && SoundPair(d, r.value)
      && (IsAnswer(c, d, Text(typed), env) ==> Rank(r.value.conversation, r.value.draft) < Rank(c, d))
      && Rank(r.value.conversation, r.value.draft) <= Rank(c, d)
  {
    match c.awaiting {
      case Amount =>
        if typed.amount.Some? {
          var currency := if typed.amount.value.currency.Some? then typed.amount.value.currency else env.defaultCurrency;
          if currency.Some? && ToMoney(typed.amount.value.value, currency.value).Accepted? && !d.state.AwaitingRecognition? {
            var edited := SetAmount(d, d.owner, ToMoney(typed.amount.value.value, currency.value).value, env.now).value;
            AdvanceSteps(c, edited, Awaiting.Merchant, Some(typed.amount.value.currency.None?), env.now);
          }
        }
      case Merchant =>
        if typed.merchant.Some? && !d.state.AwaitingRecognition? {
          AdvanceSteps(c, SetMerchant(d, d.owner, typed.merchant.value, env.now).value, Awaiting.Category, None, env.now);
        }
      case _ =>
    }
  }

  /** What a typed currency does to the draft's amount is what `DraftConfluence` says about it. */
  lemma CurrencyTextRestates(c: Conversation, d: Draft, typed: Typed, env: Env)
    requires Open(d.state) && !d.state.AwaitingRecognition? && c.awaiting.Currency? && typed.currency.Some?
    ensures OnText(c, d, typed, env).Accepted?
    ensures OnText(c, d, typed, env).value.draft.amount == Confluence.AnswerCurrency(d, typed.currency.value, env.now).amount
  {
  }

  lemma ButtonIsSound(c: Conversation, d: Draft, action: Action, user: Id, env: Env)
    requires Ready(c, Some(d), user)
    ensures var r := OnButton(c, d, action, env);
      r.Accepted? ==>
        && SoundPair(d, r.value)
        && (IsAnswer(c, d, Press(d.id, action), env) ==> Rank(r.value.conversation, r.value.draft) < Rank(c, d))
        && Rank(r.value.conversation, r.value.draft) <= Rank(c, d)
    ensures IsAnswer(c, d, Press(d.id, action), env) ==> OnButton(c, d, action, env).Accepted?
  {
    if action.Skip? && c.awaiting.Merchant? && !d.state.AwaitingRecognition? {
      AdvanceSteps(c, d, Awaiting.Category, None, env.now);
    }
  }

  lemma OpensIsSound(c: Conversation, closed: Option<Draft>, active: Option<Draft>, user: Id, fileId: Option<string>, env: Env)
    requires closed.Some? <==> active.Some?
    requires closed.Some? ==> Evolves(active.value, closed.value) && !Open(closed.value.state) && !closed.value.state.Confirmed?
    ensures SoundTurn(c, active, user, env, Opens(c, closed, user, fileId, env))
  {
  }

  lemma DraftActionIsSound(c: Conversation, d: Draft, action: Action, user: Id, env: Env)
    requires Ready(c, Some(d), user) && OnDraftAction(c, d, action, user, env).Accepted?
    ensures SoundTurn(c, Some(d), user, env, OnDraftAction(c, d, action, user, env).value)
  {
    match action {
      case Discard =>
        OpensIsSound(Idle(env.now), Some(CaptureDraft.Cancel(d, d.owner, env.now).value), Some(d), user, c.pending, env);
      case ConfirmDraft => ConfirmIsSound(d, user, env);
      case _ => ButtonIsSound(c, d, action, user, env);
    }
  }

  /** One bot update: the user's open draft stays the conversation's, and the question stays right. */
  lemma RespondIsSound(c: Conversation, active: Option<Draft>, input: Input, user: Id, env: Env)
    requires Ready(c, active, user)
    requires Respond(c, active, input, user, env).Accepted?
    ensures SoundTurn(c, active, user, env, Respond(c, active, input, user, env).value)
  {
    if active.Some? {
      match input {
        case Text(typed) => TextIsSound(c, active.value, typed, user, env);
        case Press(id, action) =>
          if id == active.value.id {
            DraftActionIsSound(c, active.value, action, user, env);
          }
        case _ =>
      }
    } else {
      match input {
        case Add => OpensIsSound(c, None, None, user, None, env);
        case Photo(fileId) => OpensIsSound(c, None, None, user, Some(fileId), env);
        case _ =>
      }
    }
  }

  lemma ConfirmIsSound(d: Draft, user: Id, env: Env)
    requires d.owner == user && Open(d.state) && DraftRowOk(d)
    ensures var r := ConfirmOpen(d, user, env);
      r.Saves? ==> Evolves(d, r.draft) && OnlyConfirmed(d, r.draft) && SavedAs(r.draft, r.expense) && r.expense.id == env.freshExpense
  {
  }

  /** A turn keeps every draft in review complete; a new draft is not in review. */
  lemma RespondKeepsComplete(c: Conversation, active: Option<Draft>, input: Input, user: Id, env: Env)
    requires Ready(c, active, user) && Respond(c, active, input, user, env).Accepted?
    requires active.Some? ==> Complete(active.value)
    ensures var turn := Respond(c, active, input, user, env).value;
      turn.edited.Some? ==> Complete(turn.edited.value)
  {
    if active.Some? {
      match input {
        case Text(typed) => TextIsSound(c, active.value, typed, user, env);
        case Press(id, action) => ButtonIsSound(c, active.value, action, user, env);
        case _ =>
      }
    }
  }

  /** An accepted answer lowers the rank of its draft; no other input raises it. */
  lemma AnswersLowerRank(c: Conversation, d: Draft, input: Input, user: Id, env: Env)
    requires Ready(c, Some(d), user) && Respond(c, Some(d), input, user, env).Accepted?
    ensures var turn := Respond(c, Some(d), input, user, env).value;
      var after := if turn.edited.Some? then turn.edited.value else d;
      && Rank(turn.conversation, after) <= Rank(c, d)
      && (IsAnswer(c, d, input, env) ==> Rank(turn.conversation, after) < Rank(c, d))
  {
    match input {
      case Text(typed) => TextIsSound(c, d, typed, user, env);
      case Press(id, action) => ButtonIsSound(c, d, action, user, env);
      case _ =>
    }
  }

  /** A delivery keeps the same facts, whether or not the conversation still points at the draft. */
  lemma DeliverIsSound(c: Conversation, d: Draft, result: Option<RecognitionResult>, chat: bool, now: Instant)
    requires c.Valid() && Open(d.state) && DraftRowOk(d) && d.receiptId.Some?
    requires c.active == Some(d.id) ==> PairOk(c, d)
    requires result.Some? ==> result.value.owner == d.owner && Some(result.value.receiptId) == d.receiptId
    ensures Deliver(c, d, result, chat, now).Accepted?
    ensures var p := Deliver(c, d, result, chat, now).value;
      && p.conversation.Valid() && p.conversation.active == c.active
      && Evolves(d, p.draft) && Open(p.draft.state) && !p.draft.state.AwaitingRecognition?
      && (p.conversation.active == Some(d.id) ==> PairOk(p.conversation, p.draft))
      && (c.active != Some(d.id) ==> p.conversation == c)
      && (Complete(d) ==> Complete(p.draft))
      && Rank(p.conversation, p.draft) <= Rank(c, d)
      && (result.Some? ==> p.draft.resultId == Some(result.value.id))
      && (result.None? ==> p.draft.resultId == d.resultId)
  {
    if result.Some? && !d.state.AwaitingRecognition? {
      var after := ApplyRecognition(d, result.value, now).value;
      if c.active == Some(d.id) && after.state.Collecting? && after.amount.Set? {
        AdvanceSteps(c, after, Awaiting.Merchant, Some(false), now);
      }
    }
  }
}
