/**
 The handlers, use cases and worker steps as they run: over one database session, reading rows,
 reassigning drafts and conversations and saving them, committing and rolling back. Each is
 proved to perform the atomic step of `CaptureSystem`, and what is committed on the way is recorded.
 */
module CaptureSession {
  import opened Wrappers
  import opened Amounts
  import opened CaptureDraft
  import opened Conversations
  import opened Receipts
  import opened Expenses
  import opened CaptureFlow
  import opened CaptureSystem

  /** A turn overwrites whatever locking wrote to the user's conversation. */
  lemma WriteAfterLock(t: Tables, locked: Tables, user: Id, row: Conversation, turn: Turn)
    requires locked == t.(conversations := t.conversations[user := row])
    ensures Write(locked, user, turn) == Write(t, user, turn)
  {
    assert locked.conversations[user := turn.conversation] == t.conversations[user := turn.conversation];
  }

  /** The reply is decided on the locked conversation, and written over whatever locking wrote. */
  lemma DispatchTables(t: Tables, locked: Tables, user: Id, row: Conversation, c: Conversation, active: Option<Draft>, input: Input, env: Env)
    requires locked == t.(conversations := t.conversations[user := row])
    requires c == Lock(t, user, env.now) && active == ActiveDraft(locked, user, c)
    ensures Reply(t, user, input, env) == Respond(c, active, input, user, env)
    ensures forall turn: Turn :: Write(locked, user, turn) == Write(t, user, turn)
  {
    forall turn: Turn ensures Write(locked, user, turn) == Write(t, user, turn) {
      WriteAfterLock(t, locked, user, row, turn);
    }
  }

  /** Recording the update changes no reply; both commits of an update are writes on top of it. */
  lemma HandledTables(t: Tables, update: int, user: Id, input: Input, env: Env)
    requires update !in t.ledger
    ensures var recorded := t.(ledger := t.ledger[update := env.now]);
      var turn := Reply(t, user, input, env);
      && Reply(recorded, user, input, env) == turn
      && UpdateStep(t, update, user, input, env) == (if turn.Rejected? then t else Write(recorded, user, turn.value))
      && (turn.Accepted? && turn.value.expense.Some? ==>
            input.Press? && FirstCommitStep(t, update, user, input.draftId, env) == Write(recorded, user, turn.value.(conversation := Lock(recorded, user, env.now))))
  {
  }

  class Session {
    var drafts: map<Id, Draft>
    var receipts: map<Id, Receipt>
    var results: map<Id, RecognitionResult>
    var conversations: map<Id, Conversation>
    var expenses: map<Id, Expense>
    var ledger: map<int, Instant>
    var images: set<Id>
    var attempts: map<Id, Id>
    var pending: map<int, Id>
    var saved: Tables              // the last committed state
    ghost var commits: seq<Tables> // every state committed by this session

    function Working(): Tables
      reads this
    {
      Tables(drafts, receipts, results, conversations, expenses, ledger, images, attempts, pending)
    }

    ghost predicate Clean()
      reads this
    {
      saved == Working()
    }

    /** Every draft row is stored under its own id. */
    ghost predicate Keyed()
      reads this
    {
      forall d | d in drafts :: drafts[d].id == d
    }

    constructor (t: Tables)
      ensures Working() == t && Clean() && commits == []
    {
      drafts, receipts, results, conversations := t.drafts, t.receipts, t.results, t.conversations;
      expenses, ledger, images, attempts, pending := t.expenses, t.ledger, t.images, t.attempts, t.pending;
      saved, commits := t, [];
    }

    method Commit()
      modifies `saved, `commits
      ensures Clean() && commits == old(commits) + [Working()]
    {
      saved := Working();
      commits := commits + [saved];
    }

    method Rollback()
      modifies this
      ensures Working() == old(saved) && Clean() && commits == old(commits)
    {
      drafts, receipts, results, conversations := saved.drafts, saved.receipts, saved.results, saved.conversations;
      expenses, ledger, images, attempts, pending := saved.expenses, saved.ledger, saved.images, saved.attempts, saved.pending;
    }

    // --- repositories ---

    method LockConversation(user: Id, now: Instant) returns (c: Conversation)
      modifies `conversations
      ensures c == Lock(old(Working()), user, now) && conversations == old(conversations)[user := c]
    {
      if user !in conversations {
        conversations := conversations[user := Idle(now)];
      }
      c := conversations[user];
    }

    method Save(user: Id, c: Conversation)
      modifies `conversations
      ensures conversations == old(conversations)[user := c]
    {
      conversations := conversations[user := c];
    }

    method UpdateDraft(d: Draft)
      modifies `drafts
      ensures drafts == old(drafts)[d.id := d]
    {
      drafts := drafts[d.id := d];
    }

    method GetDraft(id: Id, owner: Id) returns (d: Option<Draft>)
      ensures d == OwnedDraft(Working(), owner, id)
    {
      if id in drafts && drafts[id].owner == owner {
        d := Some(drafts[id]);
      } else {
        d := None;
      }
    }

    /** The open draft the conversation points at; a pointer to anything else is dropped. */
    method GetActiveDraft(user: Id, c: Conversation, now: Instant) returns (d: Option<Draft>)
      modifies `conversations
      ensures d == ActiveDraft(old(Working()), user, c)
      ensures conversations == if d.None? && c.active.Some? then old(conversations)[user := Idle(now)] else old(conversations)
    {
      d := None;
      if c.active.Some? {
        d := GetDraft(c.active.value, user);
        if d.None? || !Open(d.value.state) {
          Save(user, Idle(now));
          d := None;
        }
      }
    }

    // --- flow steps on the active draft ---

    /** `c` and `d` are the rows as they stand. */
    predicate Holds(user: Id, c: Conversation, d: Draft)
      reads this
    {
      user in conversations && conversations[user] == c && d.id in drafts && drafts[d.id] == d
    }

    method Review(user: Id, conversation: Conversation, draft: Draft, now: Instant)
      modifies `drafts, `conversations
      ensures drafts == old(drafts)[draft.id := draft]
      ensures conversations == old(conversations)[user := conversation.WaitingFor(Nothing, now)]
    {
      UpdateDraft(draft);
      Save(user, conversation.WaitingFor(Nothing, now));
    }

    method AdvanceDraft(user: Id, c: Conversation, d: Draft, next: Awaiting, isDefault: Option<bool>, now: Instant)
      requires Open(d.state)
      modifies `drafts, `conversations
      ensures var p := Advance(c, d, next, isDefault, now);
        drafts == old(drafts)[d.id := p.draft] && conversations == old(conversations)[user := p.conversation]
    {
      var conversation, draft, nextField := c, d, next;
      if isDefault.Some? {
        conversation := conversation.WithDraft(draft.id, conversation.awaiting, isDefault.value, now);
      }
      if draft.state.Collecting? && draft.receiptId.Some? {
        if nextField.Merchant? && draft.merchant.Set? {
          nextField := Awaiting.Category;
        }
        if nextField.Category? && draft.category.Set? {
          draft := MarkReady(draft, draft.owner, now).value;
        }
      }
      if draft.state.Collecting? {
        UpdateDraft(draft);
        Save(user, conversation.WaitingFor(nextField, now));
      } else {
        Review(user, conversation, draft, now);
      }
    }

    /** The answer to the question the bot asked; false stands for an exception. */
    method AnswerText(user: Id, c: Conversation, d: Draft, typed: Typed, env: Env) returns (ok: bool)
      requires Holds(user, c, d) && d.owner == user && Open(d.state)
      modifies `drafts, `conversations
      ensures ok == OnText(c, d, typed, env).Accepted?
      ensures ok ==> var p := OnText(c, d, typed, env).value;
        drafts == old(drafts)[d.id := p.draft] && conversations == old(conversations)[user := p.conversation]
    {
      ok := true;
      if d.state.AwaitingRecognition? {
        return;
      }
      match c.awaiting {
        case Amount =>
          if typed.amount.Some? {
            var currency := if typed.amount.value.currency.Some? then typed.amount.value.currency else env.defaultCurrency;
            if currency.Some? {
              var money := ToMoney(typed.amount.value.value, currency.value);
              if money.Accepted? {
                var draft := SetAmount(d, user, money.value, env.now).value;
                AdvanceDraft(user, c, draft, Awaiting.Merchant, Some(typed.amount.value.currency.None?), env.now);
              }
            }
          }
        case Currency =>
          if typed.currency.Some? && d.amount.Set? {
            var money := ToMoney(Major(d.amount.value), typed.currency.value);
            if money.Rejected? {
              Save(user, c.WaitingFor(Awaiting.Amount, env.now));
            } else {
              var draft := SetAmount(d, user, money.value, env.now).value;
              AdvanceDraft(user, c, draft, Awaiting.Merchant, Some(false), env.now);
            }
          }
        case Merchant =>
          if typed.merchant.Some? {
            var draft := SetMerchant(d, user, typed.merchant.value, env.now).value;
            AdvanceDraft(user, c, draft, Awaiting.Category, None, env.now);
          }
        case Date =>
          AnswerDate(user, c, d, typed.date, env);
        case Category =>
        case Nothing =>
      }
    }

    method AnswerDate(user: Id, c: Conversation, d: Draft, date: Option<Day>, env: Env)
      requires Holds(user, c, d) && d.owner == user && Open(d.state)
      modifies `drafts, `conversations
      ensures OnDate(c, d, date, env).Accepted?
      ensures var p := OnDate(c, d, date, env).value;
        drafts == old(drafts)[d.id := p.draft] && conversations == old(conversations)[user := p.conversation]
    {
      if date.Some? && WithinFutureTolerance(date.value, env.today) {
        var draft := SetDate(d, user, date.value, env.now).value;
        AdvanceDraft(user, c, draft, Awaiting.Merchant, None, env.now);
      }
    }

    method PressButton(user: Id, c: Conversation, d: Draft, action: Action, env: Env) returns (ok: bool)
      requires Holds(user, c, d) && d.owner == user && Open(d.state)
      modifies `drafts, `conversations
      ensures ok == OnButton(c, d, action, env).Accepted?
      ensures ok ==> var p := OnButton(c, d, action, env).value;
        drafts == old(drafts)[d.id := p.draft] && conversations == old(conversations)[user := p.conversation]
    {
      ok := true;
      match action {
        case Skip =>
          if c.awaiting.Merchant? {
            AdvanceDraft(user, c, d, Awaiting.Category, None, env.now);
          }
        case PickCategory(key) =>
          if c.awaiting.Category? && key in env.offered {
            var edited := SetCategory(d, user, key, env.now);
            if edited.Rejected? {
              return false;
            }
            var draft := edited.value;
            if draft.state.Collecting? {
              draft := MarkReady(draft, user, env.now).value;
            }
            Review(user, c, draft, env.now);
          }
        case PickDate(daysAgo) =>
          if c.awaiting.Date? && daysAgo.Some? {
            AnswerDate(user, c, d, Some(env.today - daysAgo.value), env);
          }
        case EditField(field) =>
          if d.state.ReadyForReview? && field.Some? && !field.value.Nothing? {
            Save(user, c.WaitingFor(field.value, env.now));
          }
        case EnterManually =>
          if d.state.AwaitingRecognition? {
            UpdateDraft(ContinueManually(d, env.now));
            Save(user, c.WaitingFor(Awaiting.Amount, env.now));
          }
        case Continue =>
          if c.pending.Some? {
            Save(user, c.WithPending(None, env.now));
          }
        case _ =>
      }
    }

    method CancelActive(user: Id, d: Draft, now: Instant)
      requires d.owner == user && Open(d.state)
      modifies `drafts, `conversations
      ensures drafts == old(drafts)[d.id := CaptureDraft.Cancel(d, user, now).value]
      ensures conversations == old(conversations)[user := Idle(now)]
    {
      UpdateDraft(CaptureDraft.Cancel(d, user, now).value);
      Save(user, Idle(now));
    }

    /** A new draft, for a photo or to be typed in, takes over the conversation. */
    method OpenDraft(user: Id, c: Conversation, fileId: Option<string>, env: Env)
      modifies `drafts, `conversations, `receipts
      ensures var turn := Opens(c, None, user, fileId, env);
        && drafts == old(drafts)[env.freshDraft := turn.started.value]
        && conversations == old(conversations)[user := turn.conversation]
        && receipts == if fileId.Some? then old(receipts)[env.freshReceipt := turn.received.value] else old(receipts)
    {
      var draft;
      if fileId.Some? {
        var receipt := Receive(env.freshReceipt, user, fileId.value, env.now);
        receipts := receipts[receipt.id := receipt];
        draft := StartFromReceipt(env.freshDraft, user, receipt.id, env.now);
      } else {
        draft := Start(env.freshDraft, user, TelegramManual, env.now);
      }
      draft := SetDate(draft, user, env.today, env.now, Default).value;
      UpdateDraft(draft);
      Save(user, c.WithDraft(draft.id, if fileId.Some? then Nothing else Awaiting.Amount, false, env.now));
    }

    // --- confirmation ---

    /** Lock, decide, create the expense and close the draft, and commit both together. */
    method ConfirmCaptureDraft(draftId: Id, caller: Id, env: Env) returns (reply: ConfirmReply)
      requires Keyed()
      modifies this
      ensures Keyed()
      ensures (reply, Working()) == ConfirmOutcome(old(Working()), caller, draftId, env)
      ensures if Working() == old(Working()) then unchanged(`saved, `commits) else Clean() && commits == old(commits) + [Working()]
    {
      var found := GetDraft(draftId, caller);
      if found.None? {
        return Denied;
      }
      var draft := found.value;
      if draft.state.Confirmed? {
        if draft.expenseId.None? || draft.expenseId.value !in expenses {
          return Refused;
        }
        var existing := expenses[draft.expenseId.value];
        return if existing.owner == caller && IsActive(existing) then Returned(existing) else Refused;
      }
      if !IsConfirmable(draft) || !WithinFutureTolerance(draft.date.value, env.today) {
        return Refused;
      }
      var expense := FromDraft(draft, env.freshExpense, env.now);
      if expense.Rejected? || expense.value.category !in env.known {
        return Raised;
      }
      expenses := expenses[expense.value.id := expense.value];
      UpdateDraft(CaptureDraft.Confirm(draft, caller, expense.value.id, env.now).value);
      assert drafts[draftId].state.Confirmed?;
      Commit();
      return Returned(expense.value);
    }

    // --- one update ---

    /** A confirmed draft is committed with its expense; the conversation follows in the next commit. */
    method PressConfirm(user: Id, c: Conversation, d: Draft, env: Env) returns (ok: bool)
      requires Keyed() && Holds(user, c, d) && d.owner == user && Open(d.state)
      modifies this
      ensures ok == OnDraftAction(c, d, ConfirmDraft, user, env).Accepted?
      ensures ok ==> Working() == Write(old(Working()), user, OnDraftAction(c, d, ConfirmDraft, user, env).value)
      ensures var confirmed := ok && OnDraftAction(c, d, ConfirmDraft, user, env).value.expense.Some?;
        && (!confirmed ==> unchanged(`saved, `commits))
        && (confirmed ==>
              && saved == Write(old(Working()), user, OnDraftAction(c, d, ConfirmDraft, user, env).value.(conversation := c))
              && commits == old(commits) + [saved])
    {
      ok := true;
      if d.state.ReadyForReview? {
        var reply := ConfirmCaptureDraft(d.id, user, env);
        ok := !reply.Raised?;
        if reply.Returned? {
          assert Working() == Write(old(Working()), user, OnDraftAction(c, d, ConfirmDraft, user, env).value.(conversation := c));
          Save(user, Idle(env.now));
        }
      }
    }

    method PressOnDraft(user: Id, c: Conversation, d: Draft, action: Action, env: Env) returns (ok: bool)
      requires Keyed() && Holds(user, c, d) && d.owner == user && Open(d.state)
      modifies this
      ensures ok == OnDraftAction(c, d, action, user, env).Accepted?
      ensures ok ==> Working() == Write(old(Working()), user, OnDraftAction(c, d, action, user, env).value)
      ensures var confirmed := ok && OnDraftAction(c, d, action, user, env).value.expense.Some?;
        && (!confirmed ==> unchanged(`saved, `commits))
        && (confirmed ==>
              && saved == Write(old(Working()), user, OnDraftAction(c, d, action, user, env).value.(conversation := c))
              && commits == old(commits) + [saved])
    {
      match action {
        case ConfirmDraft => ok := PressConfirm(user, c, d, env);
        case CancelDraft =>
          CancelActive(user, d, env.now);
          ok := true;
        case Discard =>
          PressDiscard(user, c, d, env);
          ok := true;
        case _ => ok := PressEdit(user, c, d, action, env);
      }
    }

    /** The draft is cancelled, and a new one opened for the photo that waited, or to be typed in. */
    method PressDiscard(user: Id, c: Conversation, d: Draft, env: Env)
      requires Keyed() && Holds(user, c, d) && d.owner == user && Open(d.state)
      modifies `drafts, `conversations, `receipts
      ensures OnDraftAction(c, d, Discard, user, env).Accepted?
      ensures Working() == Write(old(Working()), user, OnDraftAction(c, d, Discard, user, env).value)
    {
      CancelActive(user, d, env.now);
      OpenDraft(user, Idle(env.now), c.pending, env);
    }

    /** A button that keeps the draft open. */
    method PressEdit(user: Id, c: Conversation, d: Draft, action: Action, env: Env) returns (ok: bool)
      requires Keyed() && Holds(user, c, d) && d.owner == user && Open(d.state)
      requires !action.ConfirmDraft? && !action.CancelDraft? && !action.Discard?
      modifies `drafts, `conversations
      ensures ok == OnDraftAction(c, d, action, user, env).Accepted?
      ensures ok ==> Working() == Write(old(Working()), user, OnDraftAction(c, d, action, user, env).value)
      ensures ok ==> OnDraftAction(c, d, action, user, env).value.expense.None?
    {
      ok := PressButton(user, c, d, action, env);
    }

    method RespondOnDraft(user: Id, c: Conversation, d: Draft, input: Input, env: Env) returns (ok: bool)
      requires Keyed() && Holds(user, c, d) && d.owner == user && Open(d.state)
      modifies this
      ensures ok == Respond(c, Some(d), input, user, env).Accepted?
      ensures ok ==> Working() == Write(old(Working()), user, Respond(c, Some(d), input, user, env).value)
      ensures var confirmed := ok && Respond(c, Some(d), input, user, env).value.expense.Some?;
        && (!confirmed ==> unchanged(`saved, `commits))
        && (confirmed ==>
              && saved == Write(old(Working()), user, Respond(c, Some(d), input, user, env).value.(conversation := c))
              && commits == old(commits) + [saved])
    {
      ok := true;
      match input {
        case Add =>
          if c.pending.Some? {
            Save(user, c.WithPending(None, env.now));
          }
        case Photo(fileId) => Save(user, c.WithPending(Some(fileId), env.now));
        case CancelCommand => CancelActive(user, d, env.now);
        case Text(typed) => ok := AnswerText(user, c, d, typed, env);
        case Press(draftId, action) =>
          if draftId == d.id {
            ok := PressOnDraft(user, c, d, action, env);
          }
      }
    }

    method RespondWithoutDraft(user: Id, c: Conversation, input: Input, env: Env)
      requires user in conversations && conversations[user] == Settle(c, env.now)
      modifies `drafts, `conversations, `receipts
      ensures Respond(c, None, input, user, env).Accepted?
      ensures Working() == Write(old(Working()), user, Respond(c, None, input, user, env).value)
    {
      match input {
        case Add => OpenDraft(user, c, None, env);
        case Photo(fileId) => OpenDraft(user, c, Some(fileId), env);
        case _ =>
      }
    }

    /** The response to an input once the conversation is locked and its draft is read. */
    method RespondLocked(user: Id, c: Conversation, active: Option<Draft>, input: Input, env: Env) returns (ok: bool)
      requires Keyed()
      requires active.None? ==> user in conversations && conversations[user] == Settle(c, env.now)
      requires active.Some? ==> Holds(user, c, active.value) && active.value.owner == user && Open(active.value.state)
      modifies this
      ensures ok == Respond(c, active, input, user, env).Accepted?
      ensures ok ==> Working() == Write(old(Working()), user, Respond(c, active, input, user, env).value)
      ensures var confirmed := ok && Respond(c, active, input, user, env).value.expense.Some?;
        && (!confirmed ==> unchanged(`saved, `commits))
        && (confirmed ==>
              && saved == Write(old(Working()), user, Respond(c, active, input, user, env).value.(conversation := c))
              && commits == old(commits) + [saved])
    {
      if active.None? {
        RespondWithoutDraft(user, c, input, env);
        ok := true;
      } else {
        ok := RespondOnDraft(user, c, active.value, input, env);
      }
    }

    /** What the bot does with one update of a linked user; false stands for an exception. */
    method Dispatch(user: Id, input: Input, env: Env) returns (ok: bool)
      requires Keyed()
      modifies this
      ensures ok == Reply(old(Working()), user, input, env).Accepted?
      ensures ok ==> Working() == Write(old(Working()), user, Reply(old(Working()), user, input, env).value)
      ensures var turn := Reply(old(Working()), user, input, env);
        && (turn.Rejected? || turn.value.expense.None? ==> unchanged(`saved, `commits))
        && (turn.Accepted? && turn.value.expense.Some? ==>
              && saved == Write(old(Working()), user, turn.value.(conversation := Lock(old(Working()), user, env.now)))
              && commits == old(commits) + [saved])
    {
      ghost var t := Working();
      var c := LockConversation(user, env.now);
      var active := GetActiveDraft(user, c, env.now);
      DispatchTables(t, Working(), user, conversations[user], c, active, input, env);
      ok := RespondLocked(user, c, active, input, env);
    }

    /** Deduplicate, dispatch, commit; an exception rolls back the update id with everything else. */
    method Handle(update: int, user: Id, input: Input, env: Env)
      requires Clean() && Keyed()
      modifies this
      ensures Clean() && Working() == UpdateStep(old(Working()), update, user, input, env)
      ensures var t := old(Working()); var turn := Reply(t, user, input, env);
        commits == old(commits)
          + (if update in t.ledger || turn.Rejected? then []
             else if turn.value.expense.Some? then [FirstCommitStep(t, update, user, input.draftId, env), Working()]
             else [Working()])
    {
      if update in ledger {
        Rollback();
        return;
      }
      HandledTables(Working(), update, user, input, env);
      ledger := ledger[update := env.now];
      var ok := Dispatch(user, input, env);
      if ok {
        Commit();
      } else {
        Rollback();
      }
    }

    // --- the worker ---

    /** One receipt, one draft: the table's unique constraint on the receipt id. */
    ghost predicate OneDraftEach()
      reads this
    {
      && (forall r | r in receipts :: receipts[r].id == r)
      && forall a, b | a in drafts && b in drafts && drafts[a].receiptId.Some? && drafts[a].receiptId == drafts[b].receiptId :: a == b
    }

    /** The late second commit of a confirmation: the idle conversation is saved, whatever has become of the row since. */
    method FinishConfirmation(update: int, now: Instant)
      requires Clean() && update in pending
      modifies this
      ensures Clean() && Working() == SecondCommitStep(old(Working()), update, now) && commits == old(commits) + [Working()]
    {
      Save(pending[update], Idle(now));
      pending := pending - {update};
      Commit();
    }

    method GetDraftByReceipt(receipt: Id) returns (d: Option<Draft>)
      requires OneDraftEach()
      ensures var found := DraftOfReceipt(Working(), receipt);
        d == if found.Some? then Some(drafts[found.value]) else None
    {
      if id :| id in drafts && drafts[id].receiptId == Some(receipt) {
        assert HasDraft(Working(), receipt, id);
        return Some(drafts[id]);
      } else {
        return None;
      }
    }

    predicate Older(a: Receipt, b: Receipt) {
      a.createdAt < b.createdAt || (a.createdAt == b.createdAt && a.id <= b.id)
    }

    /** The oldest claimable receipt no other worker has locked, claimed and committed at once. */
    method ClaimNext(locked: set<Id>, attempt: Id, now: Instant, lease: int) returns (claimed: Option<Receipt>)
      requires Clean() && OneDraftEach() && lease > 0
      modifies this
      ensures Clean()
      ensures claimed.None? ==>
        && Working() == old(Working())
        && forall r | r in receipts && r !in locked :: !IsClaimable(receipts[r], now)
      ensures claimed.Some? ==> var id := claimed.value.id;
        && id in old(receipts) && id !in locked && IsClaimable(old(receipts)[id], now)
        && (forall r | r in old(receipts) && r !in locked && IsClaimable(old(receipts)[r], now) :: Older(old(receipts)[id], old(receipts)[r]))
        && Working() == ClaimStep(old(Working()), id, attempt, now, lease)
        && claimed.value == receipts[id] && IsCurrent(claimed.value, attempt)
    {
      var candidates := set r | r in receipts && r !in locked && IsClaimable(receipts[r], now);
      if candidates == {} {
        assert forall r | r in receipts && r !in locked && IsClaimable(receipts[r], now) :: r in candidates;
        return None;
      }
      var oldest :| oldest in candidates;
      var rest := candidates;
      while rest != {}
        invariant rest <= candidates && oldest in candidates
        invariant forall r | r in candidates && r !in rest :: Older(receipts[oldest], receipts[r])
        decreases rest
      {
        var r :| r in rest;
        if !Older(receipts[oldest], receipts[r]) {
          oldest := r;
        }
        rest := rest - {r};
      }
      var record := Claim(receipts[oldest], attempt, now, lease).value;
      receipts := receipts[oldest := record];
      attempts := attempts[attempt := oldest];
      Commit();
      return Some(record);
    }

    /** Keep a downloaded image unless its receipt is gone; a second image for it fails. No attempt is checked. */
    method PutImage(receipt: Id, attempt: Id) returns (kept: Result<bool>)
      requires Clean()
      modifies this
      ensures Clean() && Working() == Next(old(Working()), StoreImage(receipt, attempt))
      ensures kept == if receipt in old(images) && receipt in receipts then Rejected else Accepted(receipt in receipts)
    {
      if receipt !in receipts {
        Commit();
        return Accepted(false);
      }
      if receipt in images {
        Rollback();
        return Rejected;
      }
      images := images + {receipt};
      Commit();
      return Accepted(true);
    }

    /** Record a finished attempt, only if it is still the current one. */
    method SaveFinished(id: Id, attempt: Id, recognized: bool, now: Instant) returns (ok: bool)
      modifies `receipts
      ensures ok == HoldsAttempt(old(Working()), id, attempt)
      ensures receipts == if ok then old(receipts)[id := Receipts.Finish(old(receipts)[id], attempt, recognized, now).value] else old(receipts)
    {
      ok := id in receipts && receipts[id].attempt == Some(attempt) && receipts[id].state.Processing?;
      if ok {
        receipts := receipts[id := receipts[id].(state := if recognized then Recognized else RecognitionFailed, leaseExpiresAt := None, modifiedAt := now)];
      }
    }

    /** Bring the receipt's open draft and its owner's conversation up to date. */
    method DeliverTo(c: Conversation, d: Draft, result: Option<RecognitionResult>, chat: bool, now: Instant) returns (ok: bool)
      requires Holds(d.owner, c, d) && Open(d.state)
      modifies `drafts, `conversations
      ensures ok == Deliver(c, d, result, chat, now).Accepted?
      ensures ok ==> var p := Deliver(c, d, result, chat, now).value;
        drafts == old(drafts)[d.id := p.draft] && conversations == old(conversations)[d.owner := p.conversation]
    {
      var wasWaiting := d.state.AwaitingRecognition?;
      var draft;
      if result.Some? {
        var applied := ApplyRecognition(d, result.value, now);
        if applied.Rejected? {
          return false;
        }
        draft := applied.value;
      } else {
        draft := ContinueManually(d, now);
      }
      UpdateDraft(draft);
      if result.Some? && !wasWaiting {
        if chat && c.active == Some(draft.id) && c.pending.None? && !SameFields(d, draft)
            && draft.state.Collecting? && c.awaiting.Amount? && draft.amount.Set? {
          AdvanceDraft(d.owner, c, draft, Awaiting.Merchant, Some(false), now);
        }
      } else if c.active == Some(draft.id) && wasWaiting && !(result.Some? && draft.state.ReadyForReview?) {
        Save(d.owner, c.WaitingFor(Awaiting.Amount, now));
      }
      return true;
    }

    /** The part of finishing that does not depend on the draft; false when the attempt is stale. */
    method CloseCurrent(id: Id, attempt: Id, output: Option<Values>, resultId: Id, now: Instant) returns (ok: bool)
      requires OneDraftEach()
      modifies `receipts, `results, `conversations
      ensures ok == HoldsAttempt(old(Working()), id, attempt)
      ensures ok ==> Working() == CloseAttempt(old(Working()), id, attempt, output, resultId, now)
      ensures ok ==> conversations[old(receipts)[id].owner] == Lock(old(Working()), old(receipts)[id].owner, now)
    {
      ok := SaveFinished(id, attempt, output.Some?, now);
      if ok {
        var c := LockConversation(receipts[id].owner, now);
        var result := ResultOf(receipts[id], attempt, output, resultId);
        if result.Some? {
          results := results[resultId := result.value];
        }
      }
    }

    /** Move the receipt's draft on, if it is still open, once the attempt itself is closed. */
    method FinishDraft(ghost t: Tables, id: Id, attempt: Id, output: Option<Values>, chat: bool, resultId: Id, now: Instant) returns (ok: bool)
      requires HoldsAttempt(t, id, attempt) && Working() == CloseAttempt(t, id, attempt, output, resultId, now)
      requires Keyed() && OneDraftEach()
      requires forall d | d in drafts && drafts[d].receiptId == Some(id) :: drafts[d].owner == receipts[id].owner
      modifies `drafts, `conversations
      ensures ok ==> Working() == FinishStep(t, id, attempt, output, chat, resultId, now)
      ensures !ok ==> FinishStep(t, id, attempt, output, chat, resultId, now) == t
    {
      ok := true;
      var owner := receipts[id].owner;
      var draft := GetDraftByReceipt(id);
      SameDraftOfReceipt(t, Working(), id);
      if draft.Some? && Open(draft.value.state) {
        DeliveredTables(t, id, attempt, output, chat, resultId, now, draft.value);
        ok := DeliverTo(conversations[owner], draft.value, ResultOf(receipts[id], attempt, output, resultId), chat, now);
      }
    }

    /** Finish the attempt, store its result and move the draft and conversation on, all or nothing. */
    method FinishAttempt(id: Id, attempt: Id, output: Option<Values>, chat: bool, resultId: Id, now: Instant)
      requires Clean() && Keyed() && OneDraftEach()
      requires forall d | d in drafts && drafts[d].receiptId == Some(id) && id in receipts :: drafts[d].owner == receipts[id].owner
      modifies this
      ensures Clean() && Working() == FinishStep(old(Working()), id, attempt, output, chat, resultId, now)
    {
      ghost var t := Working();
      var ok := CloseCurrent(id, attempt, output, resultId, now);
      if ok {
        ok := FinishDraft(t, id, attempt, output, chat, resultId, now);
      }
      if ok {
        Commit();
      } else {
        Rollback();
      }
    }

    /** Lock each claimed receipt's conversation in turn and collect the receipts to write about. */
    method CollectNotices(claimed: set<Id>, now: Instant) returns (notices: set<Id>)
      requires OneDraftEach() && claimed <= receipts.Keys
      modifies `conversations
      ensures LockedFor(old(Working()), conversations, Owners(receipts, claimed), now)
      ensures AreNotices(old(Working()), claimed, notices)
    {
      ghost var t := Working();
      notices := {};
      var rest := claimed;
      while rest != {}
        invariant rest <= claimed
        invariant LockedFor(t, conversations, Owners(receipts, claimed - rest), now)
        invariant AreNotices(t, claimed - rest, notices)
        decreases rest
      {
        var id :| id in rest;
        var waits := LockAndLook(t, claimed - rest, id, now);
        if waits {
          notices := notices + {id};
        }
        assert claimed - (rest - {id}) == (claimed - rest) + {id};
        rest := rest - {id};
      }
      assert claimed - rest == claimed;
    }

    /** Lock the conversation of one receipt's owner, and see whether its draft still waits there. */
    method LockAndLook(ghost t: Tables, ghost before: set<Id>, id: Id, now: Instant) returns (waits: bool)
      requires OneDraftEach() && id in receipts && receipts == t.receipts && drafts == t.drafts && before <= receipts.Keys
      requires LockedFor(t, conversations, Owners(receipts, before), now)
      modifies `conversations
      ensures LockedFor(t, conversations, Owners(receipts, before + {id}), now)
      ensures waits == Waits(t, id)
    {
      OwnersGrow(receipts, before, id);
      var c := LockConversation(receipts[id].owner, now);
      var draft := GetDraftByReceipt(id);
      SameDraftOfReceipt(t, Working(), id);
      WaitsOnceLocked(t, id, c, draft, now);
      waits := draft.Some? && draft.value.state.AwaitingRecognition? && c.active == Some(draft.value.id);
    }

    /** Claim the overdue receipts of the batch, so that no other worker writes about them. */
    method ClaimDelayNotices(batch: set<Id>, now: Instant, before: Instant) returns (claimed: set<Id>)
      requires OneDraftEach()
      modifies `receipts
      ensures claimed == OverdueIn(old(Working()), batch, before)
      ensures receipts == NoticeStep(old(Working()), batch, now, before).receipts
      ensures OneDraftEach() && claimed <= receipts.Keys
    {
      claimed := OverdueIn(Working(), batch, before);
      MarksOverdue(Working(), batch, now, before);
      receipts := MarkedAt(receipts, claimed, now);
    }

    /** Mark overdue receipts, then tell the users whose draft is still waiting; each receipt at most once. */
    method SendDelayNotices(batch: set<Id>, now: Instant, before: Instant) returns (notices: set<Id>)
      requires Clean() && OneDraftEach()
      modifies this
      ensures Clean() && Working() == NoticeStep(old(Working()), batch, now, before)
      ensures AreNotices(old(Working()), OverdueIn(old(Working()), batch, before), notices)
    {
      ghost var t := Working();
      var claimed := ClaimDelayNotices(batch, now, before);
      WaitsDespiteNotice(t, receipts, claimed);
      ghost var marked := Working();
      notices := CollectNotices(claimed, now);
      NoticesToSend(t, marked, claimed, notices);
      NoticeTables(t, receipts, conversations, batch, now, before);
      Commit();
    }
  }

  function MarkedAt(receipts: map<Id, Receipt>, ids: set<Id>, now: Instant): map<Id, Receipt> {
    map id | id in receipts :: if id in ids then receipts[id].(noticeSentAt := Some(now)) else receipts[id]
  }

  lemma MarksOverdue(t: Tables, batch: set<Id>, now: Instant, before: Instant)
    ensures NoticeStep(t, batch, now, before).receipts == MarkedAt(t.receipts, OverdueIn(t, batch, before), now)
  {
  }

  function OverdueIn(t: Tables, batch: set<Id>, before: Instant): set<Id> {
    set id | id in batch && Overdue(t, id, before)
  }

  /** Of the receipts in `ids`, those to be written about. */
  ghost predicate AreNotices(t: Tables, ids: set<Id>, notices: set<Id>) {
    notices <= ids && forall id | id in ids :: id in notices <==> Waits(t, id)
  }

  lemma NoticesToSend(t: Tables, after: Tables, claimed: set<Id>, notices: set<Id>)
    requires AreNotices(after, claimed, notices) && forall id | id in claimed :: Waits(after, id) <==> Waits(t, id)
    ensures AreNotices(t, claimed, notices)
  {
  }

  lemma WaitsDespiteNotice(t: Tables, receipts: map<Id, Receipt>, claimed: set<Id>)
    requires forall a, b | a in t.drafts && b in t.drafts && t.drafts[a].receiptId.Some? && t.drafts[a].receiptId == t.drafts[b].receiptId :: a == b
    requires receipts.Keys == t.receipts.Keys && forall r | r in receipts :: receipts[r].owner == t.receipts[r].owner
    ensures forall id | id in claimed :: Waits(t.(receipts := receipts), id) <==> Waits(t, id)
  {
    forall id | id in claimed ensures Waits(t.(receipts := receipts), id) <==> Waits(t, id) {
      SameDraftOfReceipt(t, t.(receipts := receipts), id);
    }
  }

  lemma NoticeTables(t: Tables, receipts: map<Id, Receipt>, rows: map<Id, Conversation>, batch: set<Id>, now: Instant, before: Instant)
    requires receipts == NoticeStep(t, batch, now, before).receipts
    requires LockedFor(t, rows, Owners(receipts, OverdueIn(t, batch, before)), now)
    ensures NoticeStep(t, batch, now, before) == t.(receipts := receipts, conversations := rows)
  {
    OverdueOwners(t, receipts, batch, before);
    assert rows == NoticeStep(t, batch, now, before).conversations;
  }

  function Owners(receipts: map<Id, Receipt>, ids: set<Id>): set<Id> {
    set id | id in ids && id in receipts :: receipts[id].owner
  }

  lemma OwnersGrow(receipts: map<Id, Receipt>, ids: set<Id>, id: Id)
    requires id in receipts
    ensures Owners(receipts, ids + {id}) == Owners(receipts, ids) + {receipts[id].owner}
  {
    forall k | k in ids && k in receipts ensures receipts[k].owner in Owners(receipts, ids + {id}) {}
    assert id in ids + {id};
    assert receipts[id].owner in Owners(receipts, ids + {id});
  }

  lemma OverdueOwners(t: Tables, receipts: map<Id, Receipt>, batch: set<Id>, before: Instant)
    requires receipts.Keys == t.receipts.Keys && forall r | r in receipts :: receipts[r].owner == t.receipts[r].owner
    ensures Owners(receipts, OverdueIn(t, batch, before)) == set id | id in batch && Overdue(t, id, before) :: t.receipts[id].owner
  {
    var claimed := set id | id in batch && Overdue(t, id, before);
    var owners := set id | id in batch && Overdue(t, id, before) :: t.receipts[id].owner;
    forall u | u in Owners(receipts, claimed) ensures u in owners {
      var id :| id in claimed && id in receipts && receipts[id].owner == u;
      assert t.receipts[id].owner == u;
    }
    forall u | u in owners ensures u in Owners(receipts, claimed) {
      var id :| id in batch && Overdue(t, id, before) && t.receipts[id].owner == u;
      assert id in claimed && receipts[id].owner == u;
    }
  }

  /** Every user of `users` has a row, made idle where it was missing; other rows are untouched. */
  ghost predicate LockedFor(t: Tables, rows: map<Id, Conversation>, users: set<Id>, now: Instant) {
    rows.Keys == t.conversations.Keys + users && forall u | u in rows :: rows[u] == Lock(t, u, now)
  }

  /** The receipt's draft waits for recognition and is what its owner's conversation is about. */
  ghost predicate Waits(t: Tables, id: Id) {
    var found := DraftOfReceipt(t, id);
    && found.Some? && id in t.receipts
    && t.drafts[found.value].state.AwaitingRecognition?
    && t.receipts[id].owner in t.conversations
    && t.conversations[t.receipts[id].owner].active == Some(t.drafts[found.value].id)
  }

  lemma WaitsOnceLocked(t: Tables, id: Id, c: Conversation, draft: Option<Draft>, now: Instant)
    requires id in t.receipts && c == Lock(t, t.receipts[id].owner, now)
    requires draft == if DraftOfReceipt(t, id).Some? then Some(t.drafts[DraftOfReceipt(t, id).value]) else None
    ensures Waits(t, id) <==> draft.Some? && draft.value.state.AwaitingRecognition? && c.active == Some(draft.value.id)
  {
  }

  lemma SameDraftOfReceipt(t: Tables, t': Tables, receipt: Id)
    requires t'.drafts == t.drafts
    requires forall a, b | a in t.drafts && b in t.drafts && t.drafts[a].receiptId.Some? && t.drafts[a].receiptId == t.drafts[b].receiptId :: a == b
    ensures DraftOfReceipt(t, receipt) == DraftOfReceipt(t', receipt)
  {
    forall d ensures HasDraft(t, receipt, d) <==> HasDraft(t', receipt, d) {}
  }

  lemma OverwrittenOnce(rows: map<Id, Conversation>, user: Id, first: Conversation, last: Conversation)
    ensures rows[user := first][user := last] == rows[user := last]
  {
  }

  lemma DeliveredTables(t: Tables, id: Id, attempt: Id, output: Option<Values>, chat: bool, resultId: Id, now: Instant, d: Draft)
    requires HoldsAttempt(t, id, attempt) && DraftOfReceipt(t, id).Some? && d == t.drafts[DraftOfReceipt(t, id).value] && Open(d.state)
    ensures var closed := CloseAttempt(t, id, attempt, output, resultId, now);
      var owner := t.receipts[id].owner;
      var p := Deliver(Lock(t, owner, now), d, ResultOf(t.receipts[id], attempt, output, resultId), chat, now);
      FinishStep(t, id, attempt, output, chat, resultId, now) ==
        if p.Rejected? then t
        else closed.(drafts := closed.drafts[p.value.draft.id := p.value.draft], conversations := closed.conversations[owner := p.value.conversation])
  {
    var owner := t.receipts[id].owner;
    var p := Deliver(Lock(t, owner, now), d, ResultOf(t.receipts[id], attempt, output, resultId), chat, now);
    if p.Accepted? {
      OverwrittenOnce(t.conversations, owner, Lock(t, owner, now), p.value.conversation);
    }
  }
}
