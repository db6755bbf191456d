/** Every enabled step is sound, so every reachable state satisfies the invariants. */
module CaptureSteps {
  import opened Wrappers
  import opened Amounts
  import opened CaptureDraft
  import opened Conversations
  import opened Receipts
  import opened Expenses
  import opened CaptureFlow
  import opened CaptureFlowProofs
  import opened CaptureSystem
  import opened CaptureInvariants

  // --- bot updates ---

  lemma LockedIsReady(t: Tables, user: Id, now: Instant)
    requires Core(t)
    ensures var c := Lock(t, user, now);
      ConversationOk(t, user, c) && Ready(c, ActiveDraft(t, user, c), user)
  {
  }

  ghost predicate RowsFit(t: Tables, user: Id, active: Option<Draft>, turn: Turn, env: Env) {
    && FreshIds(t, env)
    && (active.Some? ==> active.value.id in t.drafts && t.drafts[active.value.id] == active.value && active.value.owner == user && Open(active.value.state))
    && (turn.edited.Some? ==> active.Some? && Evolves(active.value, turn.edited.value))
    && (turn.started.Some? ==> Fresh(turn.started.value, user, env))
    && (turn.received.Some? <==> turn.started.Some? && turn.started.value.receiptId.Some?)
    && (turn.received.Some? ==>
          && turn.started.value.receiptId == Some(turn.received.value.id) && turn.received.value.id == env.freshReceipt
          && turn.received.value.owner == user && turn.received.value.state.Queued? && ReceiptRowOk(turn.received.value)
          && turn.received.value.imageRemovedAt.None?)
    && (turn.expense.Some? <==> turn.edited.Some? && turn.edited.value.state.Confirmed?)
    && (turn.expense.Some? ==>
          && OnlyConfirmed(active.value, turn.edited.value)
          && SavedAs(turn.edited.value, turn.expense.value) && turn.expense.value.id == env.freshExpense)
  }

  lemma WriteDrafts(t: Tables, user: Id, active: Option<Draft>, turn: Turn, env: Env)
    requires Core(t) && RowsFit(t, user, active, turn, env)
    ensures SoundDrafts(t, Write(t, user, turn))
  {
    var t' := Write(t, user, turn);
    forall d | d in t.drafts ensures d in t'.drafts && Evolves(t.drafts[d], t'.drafts[d]) {}
  }

  lemma WriteReceipts(t: Tables, user: Id, active: Option<Draft>, turn: Turn, env: Env)
    requires Core(t) && RowsFit(t, user, active, turn, env)
    ensures SoundReceipts(t, Write(t, user, turn))
  {
  }

  lemma WriteExpenses(t: Tables, user: Id, active: Option<Draft>, turn: Turn, env: Env)
    requires Core(t) && RowsFit(t, user, active, turn, env)
    ensures SoundExpenses(t, Write(t, user, turn))
  {
    if turn.expense.Some? {
      var t' := Write(t, user, turn);
      SavedRows(t, t', turn.edited.value, turn.expense.value);
    } else {
      SameExpensesAreSound(t, Write(t, user, turn));
    }
  }

  lemma SavedRows(t: Tables, t': Tables, d: Draft, e: Expense)
    requires Core(t) && d.id in t.drafts && Evolves(t.drafts[d.id], d) && OnlyConfirmed(t.drafts[d.id], d)
    requires SavedAs(d, e) && e.id !in t.expenses && t'.expenses == t.expenses[e.id := e]
    requires d.id in t'.drafts && t'.drafts[d.id] == d
    requires forall k | k in t.drafts && k != d.id :: k in t'.drafts && t'.drafts[k] == t.drafts[k]
    ensures SoundExpenses(t, t')
  {
  }

  lemma WriteOthers(t: Tables, user: Id, active: Option<Draft>, turn: Turn, env: Env)
    requires Core(t) && RowsFit(t, user, active, turn, env)
    ensures var t' := Write(t, user, turn); SoundReceipts(t, t') && SoundResults(t, t') && SoundExpenses(t, t')
  {
    WriteReceipts(t, user, active, turn, env);
    SameResultsAreSound(t, Write(t, user, turn));
    WriteExpenses(t, user, active, turn, env);
  }

  lemma WriteConversations(t: Tables, user: Id, active: Option<Draft>, turn: Turn, env: Env)
    requires Core(t) && RowsFit(t, user, active, turn, env)
    requires ConversationOk(Write(t, user, turn), user, turn.conversation)
    ensures ConversationsOk(Write(t, user, turn))
  {
    var t' := Write(t, user, turn);
    forall u | u in t'.conversations ensures ConversationOk(t', u, t'.conversations[u]) {
      if u != user {
        assert ConversationOk(t, u, t.conversations[u]);
      }
    }
  }

  lemma WriteIsSound(t: Tables, user: Id, active: Option<Draft>, turn: Turn, env: Env)
    requires Core(t) && RowsFit(t, user, active, turn, env)
    requires ConversationOk(Write(t, user, turn), user, turn.conversation)
    ensures Sound(t, Write(t, user, turn))
  {
    WriteDrafts(t, user, active, turn, env);
    WriteOthers(t, user, active, turn, env);
    WriteConversations(t, user, active, turn, env);
  }

  /** A sound turn on the locked conversation fits the tables it is written to. */
  lemma TurnFits(t: Tables, user: Id, turn: Turn, env: Env)
    requires Core(t) && FreshIds(t, env)
    requires var c := Lock(t, user, env.now); SoundTurn(c, ActiveDraft(t, user, c), user, env, turn)
    ensures var c := Lock(t, user, env.now); RowsFit(t, user, ActiveDraft(t, user, c), turn, env)
  {
    LockedIsReady(t, user, env.now);
  }

  lemma TurnConversationOk(t: Tables, user: Id, turn: Turn, env: Env)
    requires Core(t) && FreshIds(t, env)
    requires var c := Lock(t, user, env.now); SoundTurn(c, ActiveDraft(t, user, c), user, env, turn)
    ensures ConversationOk(Write(t, user, turn), user, turn.conversation)
  {
    LockedIsReady(t, user, env.now);
  }

  /** Sound steps say nothing about the ledger. */
  lemma LedgerIsApart(t: Tables, t': Tables, ledger: map<int, Instant>)
    requires Sound(t, t')
    ensures Sound(t, t'.(ledger := ledger))
  {
    var t'' := t'.(ledger := ledger);
    assert SoundDrafts(t, t'') && SoundReceipts(t, t'') && SoundResults(t, t'') && SoundExpenses(t, t'');
    forall u | u in t''.conversations ensures ConversationOk(t'', u, t''.conversations[u]) {
      assert ConversationOk(t', u, t'.conversations[u]);
    }
  }

  /** Nor about what is pending. */
  lemma PendingIsApart(t: Tables, t': Tables, pending: map<int, Id>)
    requires Sound(t, t')
    ensures Sound(t, t'.(pending := pending))
  {
    var t'' := t'.(pending := pending);
    assert SoundDrafts(t, t'') && SoundReceipts(t, t'') && SoundResults(t, t'') && SoundExpenses(t, t'');
    forall u | u in t''.conversations ensures ConversationOk(t'', u, t''.conversations[u]) {
      assert ConversationOk(t', u, t'.conversations[u]);
    }
  }

  lemma BegunIsSound(t: Tables, t': Tables, update: int, user: Id)
    requires Sound(t, t')
    ensures Sound(t, Begun(t, t', update, user))
  {
    PendingIsApart(t, t', Begun(t, t', update, user).pending);
  }

  lemma IdleIsSound(t: Tables, user: Id, now: Instant)
    requires Core(t)
    ensures Sound(t, t.(conversations := t.conversations[user := Idle(now)]))
  {
    var t' := t.(conversations := t.conversations[user := Idle(now)]);
    NothingIsSound(t);
    forall u | u in t'.conversations ensures ConversationOk(t', u, t'.conversations[u]) {
      if u != user {
        assert ConversationOk(t, u, t.conversations[u]);
      }
    }
    assert SoundDrafts(t, t') && SoundReceipts(t, t') && SoundResults(t, t') && SoundExpenses(t, t');
  }

  lemma SecondCommitIsSound(t: Tables, update: int, now: Instant)
    requires Core(t)
    ensures Sound(t, SecondCommitStep(t, update, now))
  {
    NothingIsSound(t);
    if update in t.pending {
      IdleIsSound(t, t.pending[update], now);
      PendingIsApart(t, t.(conversations := t.conversations[t.pending[update] := Idle(now)]), t.pending - {update});
    }
  }

  /** Writing a sound turn is sound. */
  lemma TurnIsSound(t: Tables, user: Id, c: Conversation, turn: Turn, env: Env)
    requires Core(t) && FreshIds(t, env) && c == Lock(t, user, env.now) && SoundTurn(c, ActiveDraft(t, user, c), user, env, turn)
    ensures Sound(t, Write(t, user, turn))
  {
    TurnFits(t, user, turn, env);
    TurnConversationOk(t, user, turn, env);
    WriteIsSound(t, user, ActiveDraft(t, user, c), turn, env);
  }

  lemma UpdateShape(t: Tables, update: int, user: Id, input: Input, env: Env, c: Conversation, r: Result<Turn>)
    requires c == Lock(t, user, env.now) && r == Respond(c, ActiveDraft(t, user, c), input, user, env)
    ensures UpdateStep(t, update, user, input, env) ==
      if update in t.ledger || r.Rejected? then t else Write(t, user, r.value).(ledger := t.ledger[update := env.now])
  {
  }

  lemma ReplyIsSound(t: Tables, user: Id, input: Input, env: Env, c: Conversation, r: Result<Turn>)
    requires Core(t) && FreshIds(t, env) && c == Lock(t, user, env.now)
    requires r == Respond(c, ActiveDraft(t, user, c), input, user, env) && r.Accepted?
    ensures Sound(t, Write(t, user, r.value))
  {
    LockedIsReady(t, user, env.now);
    RespondIsSound(c, ActiveDraft(t, user, c), input, user, env);
    TurnIsSound(t, user, c, r.value, env);
  }

  lemma UpdateIsSound(t: Tables, update: int, user: Id, input: Input, env: Env)
    requires Core(t) && FreshIds(t, env)
    ensures Sound(t, UpdateStep(t, update, user, input, env))
  {
    NothingIsSound(t);
    var c := Lock(t, user, env.now);
    var r := Respond(c, ActiveDraft(t, user, c), input, user, env);
    UpdateShape(t, update, user, input, env, c, r);
    if update !in t.ledger && r.Accepted? {
      ReplyIsSound(t, user, input, env, c, r);
      LedgerIsApart(t, Write(t, user, r.value), t.ledger[update := env.now]);
    }
  }

  lemma FirstCommitIsSound(t: Tables, update: int, user: Id, draft: Id, env: Env)
    requires Core(t) && FreshIds(t, env)
    ensures Sound(t, FirstCommitStep(t, update, user, draft, env))
  {
    NothingIsSound(t);
    var c := Lock(t, user, env.now);
    var active := ActiveDraft(t, user, c);
    var r := Respond(c, active, Press(draft, ConfirmDraft), user, env);
    if update !in t.ledger && r.Accepted? && r.value.expense.Some? {
      LockedIsReady(t, user, env.now);
      RespondIsSound(c, active, Press(draft, ConfirmDraft), user, env);
      TurnFits(t, user, r.value, env);
      FirstWriteIsSound(t, user, c, active, r.value.(conversation := c), env);
      LedgerIsApart(t, Write(t, user, r.value.(conversation := c)), t.ledger[update := env.now]);
    }
  }

  lemma FirstWriteIsSound(t: Tables, user: Id, c: Conversation, active: Option<Draft>, turn: Turn, env: Env)
    requires Core(t) && RowsFit(t, user, active, turn, env) && ConversationOk(t, user, c)
    requires turn.conversation == c && turn.started.None? && turn.expense.Some?
    ensures Sound(t, Write(t, user, turn))
  {
    ConfirmedConversationOk(t, user, c, turn);
    WriteIsSound(t, user, active, turn, env);
  }

  /** After the first commit the conversation still points at the draft, which is confirmed now. */
  lemma ConfirmedConversationOk(t: Tables, user: Id, c: Conversation, turn: Turn)
    requires ConversationOk(t, user, c) && turn.conversation == c && turn.started.None?
    requires turn.edited.Some? && turn.edited.value.state.Confirmed? && turn.edited.value.id in t.drafts
    requires Evolves(t.drafts[turn.edited.value.id], turn.edited.value)
    ensures ConversationOk(Write(t, user, turn), user, c)
  {
  }

  // --- one draft row ---

  predicate StaysOrCloses(a: Draft, b: Draft) {
    b.state == a.state || (!b.state.Collecting? && !b.state.AwaitingRecognition?)
  }

  /** Replacing one open draft by a later, still unconfirmed version of itself. */
  lemma OneDraftIsSound(t: Tables, d: Draft)
    requires Core(t) && d.id in t.drafts && Evolves(t.drafts[d.id], d)
    requires Open(t.drafts[d.id].state) && !d.state.Confirmed?
    requires StaysOrCloses(t.drafts[d.id], d)
    ensures Sound(t, WithDraft(t, d))
  {
    var t' := WithDraft(t, d);
    forall k | k in t.drafts ensures k in t'.drafts && Evolves(t.drafts[k], t'.drafts[k]) {}
    forall u | u in t'.conversations ensures ConversationOk(t', u, t'.conversations[u]) {
      assert ConversationOk(t, u, t.conversations[u]);
    }
  }

  predicate WebChange(a: Draft, b: Draft) {
    a == b || (Open(a.state) && Evolves(a, b) && !b.state.Confirmed? && StaysOrCloses(a, b))
  }

  lemma WebIsSound(t: Tables, user: Id, id: Id, change: Draft -> Result<Draft>)
    requires Core(t)
    requires forall d :: DraftRowOk(d) && change(d).Accepted? ==> WebChange(d, change(d).value)
    ensures Sound(t, WebStep(t, user, id, change))
  {
    NothingIsSound(t);
    var d := OwnedDraft(t, user, id);
    if d.Some? && change(d.value).Accepted? {
      assert DraftRowOk(d.value);
      WebChangeIsSound(t, d.value, change(d.value).value);
    }
  }

  lemma WebChangeIsSound(t: Tables, d: Draft, after: Draft)
    requires Core(t) && d.id in t.drafts && t.drafts[d.id] == d && WebChange(d, after) && after.id == d.id
    ensures Sound(t, WithDraft(t, after))
  {
    if after == d {
      NothingIsSound(t);
      assert WithDraft(t, after) == t;
    } else {
      OneDraftIsSound(t, after);
    }
  }

  /** An edit of an open draft keeps its state and everything but the edited fields. */
  predicate EditChange(a: Draft, b: Draft) {
    a == b || (Open(a.state) && Evolves(a, b) && b.state == a.state && DraftRowOk(b))
  }

  lemma EditsChain(a: Draft, b: Draft, c: Draft)
    requires EditChange(a, b) && EditChange(b, c)
    ensures EditChange(a, c)
  {
  }

  lemma FirstEditsEvolve(d: Draft, caller: Id, amount: Money, day: Day, now: Instant)
    requires DraftRowOk(d)
    ensures SetAmount(d, caller, amount, now).Accepted? ==> EditChange(d, SetAmount(d, caller, amount, now).value)
    ensures SetDate(d, caller, day, now).Accepted? ==> EditChange(d, SetDate(d, caller, day, now).value)
  {
  }

  lemma NameEditsEvolve(d: Draft, caller: Id, name: string, now: Instant)
    requires DraftRowOk(d)
    ensures SetMerchant(d, caller, name, now).Accepted? ==> EditChange(d, SetMerchant(d, caller, name, now).value)
    ensures SetCategory(d, caller, name, now).Accepted? ==> EditChange(d, SetCategory(d, caller, name, now).value)
  {
  }

  lemma NoteEditsEvolve(d: Draft, caller: Id, note: Option<string>, now: Instant)
    requires DraftRowOk(d)
    ensures SetNote(d, caller, note, now).Accepted? ==> EditChange(d, SetNote(d, caller, note, now).value)
  {
  }

  lemma EditAllEvolves(d: Draft, caller: Id, edit: DraftEdit, now: Instant)
    requires DraftRowOk(d) && EditAll(d, caller, edit, now).Accepted?
    ensures WebChange(d, EditAll(d, caller, edit, now).value)
  {
    var a := if edit.amount.Some? then SetAmount(d, caller, edit.amount.value, now).value else d;
    var b := if edit.date.Some? then SetDate(a, caller, edit.date.value.value, now).value else a;
    var c := if edit.merchant.Some? then SetMerchant(b, caller, edit.merchant.value.value, now).value else b;
    var e := if edit.category.Some? then SetCategory(c, caller, edit.category.value, now).value else c;
    if edit.amount.Some? { FirstEditsEvolve(d, caller, edit.amount.value, 0, now); }
    if edit.date.Some? { FirstEditsEvolve(a, caller, Money(0, EUR), edit.date.value.value, now); }
    EditsChain(d, a, b);
    if edit.merchant.Some? { NameEditsEvolve(b, caller, edit.merchant.value.value, now); }
    EditsChain(d, b, c);
    if edit.category.Some? { NameEditsEvolve(c, caller, edit.category.value, now); }
    EditsChain(d, c, e);
    if edit.note.Some? {
      NoteEditsEvolve(e, caller, edit.note, now);
      EditsChain(d, e, SetNote(e, caller, edit.note, now).value);
    }
  }

  lemma WebConfirmIsSound(t: Tables, user: Id, id: Id, env: Env)
    requires Core(t) && FreshIds(t, env)
    ensures Sound(t, ConfirmOutcome(t, user, id, env).1)
  {
    NothingIsSound(t);
    var d := OwnedDraft(t, user, id);
    if d.Some? && !d.value.state.Confirmed? {
      ConfirmRowIsSound(t, user, d.value, env);
    }
  }

  /** Conversations stay right when one draft closes. */
  lemma ClosingKeepsConversations(t: Tables, t': Tables, d: Draft)
    requires Core(t) && d.id in t.drafts && Evolves(t.drafts[d.id], d) && !Open(d.state)
    requires t'.drafts == t.drafts[d.id := d] && t'.conversations == t.conversations
    ensures ConversationsOk(t')
  {
    forall u | u in t'.conversations ensures ConversationOk(t', u, t'.conversations[u]) {
      assert ConversationOk(t, u, t.conversations[u]);
    }
  }

  lemma SavingDrafts(t: Tables, d: Draft, t': Tables)
    requires Core(t) && d.id in t.drafts && Evolves(t.drafts[d.id], d) && t'.drafts == t.drafts[d.id := d]
    ensures SoundDrafts(t, t')
  {
    forall k | k in t.drafts ensures k in t'.drafts && Evolves(t.drafts[k], t'.drafts[k]) {}
  }

  lemma SavingExpenses(t: Tables, d: Draft, e: Expense, t': Tables)
    requires Core(t) && d.id in t.drafts && Evolves(t.drafts[d.id], d) && OnlyConfirmed(t.drafts[d.id], d)
    requires SavedAs(d, e) && e.id !in t.expenses && t'.drafts == t.drafts[d.id := d] && t'.expenses == t.expenses[e.id := e]
    ensures SoundExpenses(t, t')
  {
    SavedRows(t, t', d, e);
  }

  lemma SameReceiptsAreSound(t: Tables, t': Tables)
    requires Core(t) && t'.receipts == t.receipts && t'.attempts == t.attempts
    ensures SoundReceipts(t, t')
  {
  }

  lemma SavingIsSound(t: Tables, d: Draft, e: Expense)
    requires Core(t) && d.id in t.drafts && Evolves(t.drafts[d.id], d) && OnlyConfirmed(t.drafts[d.id], d)
    requires SavedAs(d, e) && e.id !in t.expenses
    ensures var t' := WithDraft(t, d).(expenses := t.expenses[e.id := e]);
      SoundDrafts(t, t') && SoundReceipts(t, t') && SoundResults(t, t') && SoundExpenses(t, t')
  {
    var t' := WithDraft(t, d).(expenses := t.expenses[e.id := e]);
    SavingDrafts(t, d, t');
    SameReceiptsAreSound(t, t');
    SameResultsAreSound(t, t');
    SavingExpenses(t, d, e, t');
  }

  lemma ConfirmRowIsSound(t: Tables, user: Id, d: Draft, env: Env)
    requires Core(t) && FreshIds(t, env) && d.id in t.drafts && t.drafts[d.id] == d && d.owner == user
    ensures var r := ConfirmOpen(d, user, env);
      r.Saves? ==> Sound(t, WithDraft(t, r.draft).(expenses := t.expenses[r.expense.id := r.expense]))
  {
    var r := ConfirmOpen(d, user, env);
    if r.Saves? {
      ConfirmIsSound(d, user, env);
      SavingIsSound(t, r.draft, r.expense);
      ClosingKeepsConversations(t, WithDraft(t, r.draft).(expenses := t.expenses[r.expense.id := r.expense]), r.draft);
    }
  }

  lemma WebStartIsSound(t: Tables, user: Id, env: Env)
    requires Core(t) && FreshIds(t, env)
    ensures Sound(t, WithDraft(t, Start(env.freshDraft, user, WebManual, env.now)))
  {
    var t' := WithDraft(t, Start(env.freshDraft, user, WebManual, env.now));
    forall k | k in t.drafts ensures k in t'.drafts && Evolves(t.drafts[k], t'.drafts[k]) {}
    forall u | u in t'.conversations ensures ConversationOk(t', u, t'.conversations[u]) {
      assert ConversationOk(t, u, t.conversations[u]);
    }
  }

  // --- worker ---

  lemma SameDraftsAreSound(t: Tables, t': Tables)
    requires Core(t) && t'.drafts == t.drafts
    ensures SoundDrafts(t, t')
  {
    forall d | d in t.drafts ensures Evolves(t.drafts[d], t'.drafts[d]) {}
  }

  lemma SameConversationsAreSound(t: Tables, t': Tables)
    requires Core(t) && t'.drafts == t.drafts && t'.conversations == t.conversations
    ensures ConversationsOk(t')
  {
    forall u | u in t'.conversations ensures ConversationOk(t', u, t'.conversations[u]) {
      assert ConversationOk(t, u, t.conversations[u]);
    }
  }

  lemma OneReceiptIsSound(t: Tables, t': Tables, r: Receipt)
    requires Core(t) && r.id in t.receipts && ReceiptEvolves(t.receipts[r.id], r) && ReceiptRowOk(r)
    requires r.imageRemovedAt == t.receipts[r.id].imageRemovedAt
    requires t'.receipts == t.receipts[r.id := r] && t'.drafts == t.drafts && t.attempts.Keys <= t'.attempts.Keys
    requires r.attempt.Some? ==> r.attempt.value in t'.attempts
    ensures SoundReceipts(t, t')
  {
    forall k | k in t.receipts ensures ReceiptEvolves(t.receipts[k], t'.receipts[k]) {}
  }

  lemma SameResultsAreSound(t: Tables, t': Tables)
    requires Core(t) && t'.results == t.results
    ensures SoundResults(t, t')
  {
  }

  lemma SameExpensesAreSound(t: Tables, t': Tables)
    requires Core(t) && t'.expenses == t.expenses
    requires forall d | d in t.drafts && d in t'.drafts :: t'.drafts[d].state.Confirmed? ==> t.drafts[d].state.Confirmed?
    ensures SoundExpenses(t, t')
  {
  }

  lemma ClaimIsSound(t: Tables, id: Id, attempt: Id, now: Instant, lease: int)
    requires Core(t) && attempt !in t.attempts
    ensures Sound(t, ClaimStep(t, id, attempt, now, lease))
  {
    NothingIsSound(t);
    var t' := ClaimStep(t, id, attempt, now, lease);
    if id in t.receipts && Claim(t.receipts[id], attempt, now, lease).Accepted? {
      SameDraftsAreSound(t, t');
      SameConversationsAreSound(t, t');
      OneReceiptIsSound(t, t', t'.receipts[id]);
      SameResultsAreSound(t, t');
      SameExpensesAreSound(t, t');
    }
  }

  // --- finishing an attempt ---

  lemma FinishReceipts(t: Tables, t': Tables, id: Id, attempt: Id, output: Option<Values>, resultId: Id, now: Instant)
    requires Core(t) && HoldsAttempt(t, id, attempt) && resultId !in t.results
    requires var closed := CloseAttempt(t, id, attempt, output, resultId, now);
      t'.receipts == closed.receipts && t'.results == closed.results && t'.attempts == closed.attempts
    ensures SoundReceipts(t, t') && SoundResults(t, t')
  {
  }

  lemma DeliveredLeavesAlone(t: Tables, closed: Tables, owner: Id, p: Result<Pair>)
    requires closed.expenses == t.expenses && closed.ledger == t.ledger && closed.images == t.images
    ensures var t' := DeliveredTo(t, closed, owner, p);
      && t'.expenses == t.expenses && t'.ledger == t.ledger && t'.images == t.images && t'.receipts in {t.receipts, closed.receipts}
  {
  }

  /** Finishing an attempt concerns neither expenses nor updates nor stored images. */
  lemma FinishLeavesAlone(t: Tables, id: Id, attempt: Id, output: Option<Values>, chat: bool, resultId: Id, now: Instant)
    ensures var t' := FinishStep(t, id, attempt, output, chat, resultId, now);
      && t'.expenses == t.expenses && t'.ledger == t.ledger && t'.images == t.images
      && (HoldsAttempt(t, id, attempt) ==> t'.receipts in {t.receipts, CloseAttempt(t, id, attempt, output, resultId, now).receipts})
      && (!HoldsAttempt(t, id, attempt) ==> t' == t)
  {
    if HoldsAttempt(t, id, attempt) {
      var closed := CloseAttempt(t, id, attempt, output, resultId, now);
      var d := DraftOfReceipt(t, id);
      if d.Some? && Open(t.drafts[d.value].state) {
        var owner := t.receipts[id].owner;
        DeliveredLeavesAlone(t, closed, owner,
          Deliver(Lock(t, owner, now), t.drafts[d.value], ResultOf(t.receipts[id], attempt, output, resultId), chat, now));
      }
    }
  }

  /** Delivering to a receipt's open draft never fails. */
  lemma Delivers(t: Tables, now: Instant, d: Draft, r: Id, result: Option<RecognitionResult>, chat: bool)
    requires Core(t) && d.id in t.drafts && t.drafts[d.id] == d && Open(d.state) && d.receiptId == Some(r) && r in t.receipts
    requires result.Some? ==> result.value.owner == t.receipts[r].owner && result.value.receiptId == r
    ensures Deliver(Lock(t, t.receipts[r].owner, now), d, result, chat, now).Accepted?
  {
    LockedIsReady(t, d.owner, now);
    DeliverIsSound(Lock(t, d.owner, now), d, result, chat, now);
  }

  lemma FinishWithoutDraft(t: Tables, id: Id, attempt: Id, output: Option<Values>, resultId: Id, now: Instant)
    requires Core(t) && resultId !in t.results && HoldsAttempt(t, id, attempt)
    ensures Sound(t, CloseAttempt(t, id, attempt, output, resultId, now))
  {
    var closed := CloseAttempt(t, id, attempt, output, resultId, now);
    var owner := t.receipts[id].owner;
    LockedIsReady(t, owner, now);
    FinishReceipts(t, closed, id, attempt, output, resultId, now);
    SameDraftsAreSound(t, closed);
    LockedRowIsSound(t, closed, owner, Lock(t, owner, now));
  }

  lemma FinishWithDraft(t: Tables, t': Tables, id: Id, attempt: Id, output: Option<Values>, chat: bool, resultId: Id, now: Instant, d: Draft)
    requires Core(t) && resultId !in t.results && HoldsAttempt(t, id, attempt)
    requires DraftOfReceipt(t, id).Some? && d == t.drafts[DraftOfReceipt(t, id).value] && Open(d.state)
    requires t' == FinishStep(t, id, attempt, output, chat, resultId, now)
    ensures Sound(t, t')
  {
    var owner := t.receipts[id].owner;
    var c := Lock(t, owner, now);
    LockedIsReady(t, owner, now);
    var result := ResultOf(t.receipts[id], attempt, output, resultId);
    DeliverIsSound(c, d, result, chat, now);
    FinishReceipts(t, t', id, attempt, output, resultId, now);
    DeliveredIsSound(t, t', owner, c, d, Deliver(c, d, result, chat, now).value);
  }

  lemma FinishIsSound(t: Tables, id: Id, attempt: Id, output: Option<Values>, chat: bool, resultId: Id, now: Instant)
    requires Core(t) && resultId !in t.results
    ensures Sound(t, FinishStep(t, id, attempt, output, chat, resultId, now))
  {
    NothingIsSound(t);
    if HoldsAttempt(t, id, attempt) {
      var found := DraftOfReceipt(t, id);
      if found.None? || !Open(t.drafts[found.value].state) {
        FinishWithoutDraft(t, id, attempt, output, resultId, now);
      } else {
        FinishWithDraft(t, FinishStep(t, id, attempt, output, chat, resultId, now), id, attempt, output, chat, resultId, now, t.drafts[found.value]);
      }
    }
  }

  /** Locking a conversation may create its row; nothing else about conversations changes. */
  lemma LockedRowIsSound(t: Tables, t': Tables, owner: Id, c: Conversation)
    requires Core(t) && ConversationOk(t, owner, c)
    requires t'.drafts == t.drafts && t'.conversations == t.conversations[owner := c] && t'.expenses == t.expenses
    ensures ConversationsOk(t') && SoundExpenses(t, t')
  {
    forall u | u in t'.conversations ensures ConversationOk(t', u, t'.conversations[u]) {
      assert ConversationOk(t, u, if u == owner then c else t.conversations[u]);
    }
  }

  lemma DeliveredIsSound(t: Tables, t': Tables, owner: Id, c: Conversation, d: Draft, p: Pair)
    requires Core(t) && ConversationOk(t, owner, c) && d.id in t.drafts && t.drafts[d.id] == d && d.owner == owner && Open(d.state)
    requires Evolves(d, p.draft) && Open(p.draft.state) && p.conversation.Valid() && p.conversation.active == c.active
    requires c.active == Some(d.id) ==> PairOk(p.conversation, p.draft)
    requires c.active != Some(d.id) ==> p.conversation == c
    requires t'.drafts == t.drafts[d.id := p.draft] && t'.conversations == t.conversations[owner := p.conversation] && t'.expenses == t.expenses
    ensures SoundDrafts(t, t') && SoundExpenses(t, t') && ConversationsOk(t')
  {
    forall k | k in t.drafts ensures k in t'.drafts && Evolves(t.drafts[k], t'.drafts[k]) {}
    forall u | u in t'.conversations ensures ConversationOk(t', u, t'.conversations[u]) {
      assert ConversationOk(t, u, if u == owner then c else t.conversations[u]);
    }
  }

  lemma NoticesAreSound(t: Tables, batch: set<Id>, now: Instant, before: Instant)
    requires Core(t)
    ensures Sound(t, NoticeStep(t, batch, now, before))
  {
    var t' := NoticeStep(t, batch, now, before);
    SameDraftsAreSound(t, t');
    NoticeReceipts(t, batch, now, before);
    SameResultsAreSound(t, t');
    SameExpensesAreSound(t, t');
    NoticeConversations(t, batch, now, before);
  }

  lemma NoticeReceipts(t: Tables, batch: set<Id>, now: Instant, before: Instant)
    requires Core(t)
    ensures SoundReceipts(t, NoticeStep(t, batch, now, before))
  {
    var t' := NoticeStep(t, batch, now, before);
    forall r | r in t.receipts ensures ReceiptEvolves(t.receipts[r], t'.receipts[r]) {}
  }

  lemma NoticeConversations(t: Tables, batch: set<Id>, now: Instant, before: Instant)
    requires Core(t)
    ensures ConversationsOk(NoticeStep(t, batch, now, before))
  {
    var t' := NoticeStep(t, batch, now, before);
    forall u | u in t'.conversations ensures ConversationOk(t', u, t'.conversations[u]) {
      LockedIsReady(t, u, now);
      assert ConversationOk(t, u, Lock(t, u, now));
    }
  }

  // --- retention ---

  lemma ExpiryDrafts(t: Tables, batch: set<Id>, cutoff: Instant, now: Instant)
    requires Core(t)
    ensures SoundDrafts(t, ExpireStep(t, batch, cutoff, now))
  {
    var t' := ExpireStep(t, batch, cutoff, now);
    forall k | k in t.drafts ensures k in t'.drafts && Evolves(t.drafts[k], t'.drafts[k]) {}
  }

  lemma ExpiryConversations(t: Tables, batch: set<Id>, cutoff: Instant, now: Instant)
    requires Core(t)
    ensures ConversationsOk(ExpireStep(t, batch, cutoff, now))
  {
    var t' := ExpireStep(t, batch, cutoff, now);
    forall u | u in t'.conversations ensures ConversationOk(t', u, t'.conversations[u]) {
      assert ConversationOk(t, u, t.conversations[u]);
    }
  }

  lemma ExpiryIsSound(t: Tables, batch: set<Id>, cutoff: Instant, now: Instant)
    requires Core(t)
    ensures Sound(t, ExpireStep(t, batch, cutoff, now))
  {
    var t' := ExpireStep(t, batch, cutoff, now);
    ExpiryDrafts(t, batch, cutoff, now);
    ExpiryConversations(t, batch, cutoff, now);
    SameReceiptsAreSound(t, t');
    SameResultsAreSound(t, t');
    SameExpensesAreSound(t, t');
  }

  lemma RemovalKeepsRows(t: Tables, batch: set<Id>, cutoff: Instant, now: Instant)
    requires Core(t)
    ensures var t' := RemoveStep(t, batch, cutoff, now); SoundDrafts(t, t') && SoundResults(t, t') && SoundExpenses(t, t')
  {
    var t' := RemoveStep(t, batch, cutoff, now);
    forall k | k in t.drafts ensures k in t'.drafts && Evolves(t.drafts[k], t'.drafts[k]) {
      ForgottenResultBelongsToClosedDraft(t, batch, cutoff, now, k);
    }
  }

  lemma ForgottenResultBelongsToClosedDraft(t: Tables, batch: set<Id>, cutoff: Instant, now: Instant, k: Id)
    requires Core(t) && k in t.drafts
    ensures Evolves(t.drafts[k], RemoveStep(t, batch, cutoff, now).drafts[k])
  {
  }

  lemma RemovalEvolves(t: Tables, batch: set<Id>, cutoff: Instant, now: Instant)
    requires Core(t)
    ensures var t' := RemoveStep(t, batch, cutoff, now);
      && t'.receipts.Keys == t.receipts.Keys && t'.attempts == t.attempts
      && forall r | r in t.receipts ::
           && ReceiptEvolves(t.receipts[r], t'.receipts[r]) && t'.receipts[r].id == r && ReceiptRowOk(t'.receipts[r])
           && t'.receipts[r].attempt == t.receipts[r].attempt
           && (t'.receipts[r].imageRemovedAt.Some? ==> !t'.receipts[r].state.Processing?)
  {
  }

  lemma RemovalReceipts(t: Tables, batch: set<Id>, cutoff: Instant, now: Instant)
    requires Core(t)
    ensures SoundReceipts(t, RemoveStep(t, batch, cutoff, now))
  {
    var t' := RemoveStep(t, batch, cutoff, now);
    RemovalEvolves(t, batch, cutoff, now);
    forall r, d | r in t.receipts && t.receipts[r].imageRemovedAt.None? && t'.receipts[r].imageRemovedAt.Some? && d in t'.drafts && t'.drafts[d].receiptId == Some(r)
      ensures !Open(t'.drafts[d].state)
    {
      assert Removable(t, r, batch, cutoff);
      var own :| HasDraft(t, r, own) && !Open(t.drafts[own].state);
      assert own == d;
    }
  }

  /** Forgetting results changes nothing a conversation depends on. */
  lemma ForgettingKeepsConversations(t: Tables, t': Tables)
    requires Core(t) && t'.conversations == t.conversations && t'.drafts.Keys == t.drafts.Keys
    requires forall d | d in t.drafts :: t'.drafts[d] == t.drafts[d] || t'.drafts[d] == t.drafts[d].(resultId := None)
    ensures ConversationsOk(t')
  {
    forall u | u in t'.conversations ensures ConversationOk(t', u, t'.conversations[u]) {
      assert ConversationOk(t, u, t.conversations[u]);
    }
  }

  lemma RemovalIsSound(t: Tables, batch: set<Id>, cutoff: Instant, now: Instant)
    requires Core(t)
    ensures Sound(t, RemoveStep(t, batch, cutoff, now))
  {
    RemovalKeepsRows(t, batch, cutoff, now);
    RemovalReceipts(t, batch, cutoff, now);
    ForgettingKeepsConversations(t, RemoveStep(t, batch, cutoff, now));
  }

  lemma ExpenseDeletionIsSound(t: Tables, user: Id, id: Id, deleted: bool, now: Instant)
    requires Core(t)
    ensures Sound(t, ExpenseStep(t, user, id, deleted, now))
  {
    NothingIsSound(t);
    var t' := ExpenseStep(t, user, id, deleted, now);
    SameDraftsAreSound(t, t');
    SameConversationsAreSound(t, t');
    assert SoundReceipts(t, t') && SoundResults(t, t') && SoundExpenses(t, t');
  }

  lemma UnlinkIsSound(t: Tables, user: Id)
    requires Core(t)
    ensures Sound(t, t.(conversations := t.conversations - {user}))
  {
    NothingIsSound(t);
    var t' := t.(conversations := t.conversations - {user});
    forall u | u in t'.conversations ensures ConversationOk(t', u, t'.conversations[u]) {
      assert ConversationOk(t, u, t.conversations[u]);
    }
    assert SoundDrafts(t, t') && SoundReceipts(t, t') && SoundResults(t, t') && SoundExpenses(t, t');
  }

  // --- every step ---

  lemma BotStepIsSound(t: Tables, a: Step)
    requires Core(t) && Enabled(t, a) && (a.Update? || a.FirstCommit? || a.SecondCommit? || a.OtherUpdate? || a.PruneLedger? || a.StoreImage?)
    ensures Sound(t, Next(t, a))
  {
    NothingIsSound(t);
    match a {
      case Update(update, user, input, env) => UpdateIsSound(t, update, user, input, env);
      case FirstCommit(update, user, draft, env) =>
        FirstCommitIsSound(t, update, user, draft, env);
        BegunIsSound(t, FirstCommitStep(t, update, user, draft, env), update, user);
      case SecondCommit(update, now) => SecondCommitIsSound(t, update, now);
      case OtherUpdate(update, now) => LedgerIsApart(t, t, t.ledger[update := now]);
      case PruneLedger(updates, cutoff) => LedgerIsApart(t, t, PruneStep(t, updates, cutoff).ledger);
      case StoreImage(receipt, _) => ImagesAreApart(t, t.images + {receipt});
    }
  }

  lemma ImagesAreApart(t: Tables, images: set<Id>)
    requires Core(t)
    ensures Sound(t, t.(images := images))
  {
    NothingIsSound(t);
    var t' := t.(images := images);
    SameConversationsAreSound(t, t');
    assert SoundDrafts(t, t') && SoundReceipts(t, t') && SoundResults(t, t') && SoundExpenses(t, t');
  }

  lemma WebStepIsSound(t: Tables, a: Step)
    requires Core(t) && Enabled(t, a)
    requires a.WebStart? || a.WebEdit? || a.WebReady? || a.WebCancel? || a.WebConfirm?
    ensures Sound(t, Next(t, a))
  {
    match a {
      case WebStart(user, env) => WebStartIsSound(t, user, env);
      case WebEdit(user, draft, edit, now) =>
        forall d | DraftRowOk(d) && EditAll(d, user, edit, now).Accepted? ensures WebChange(d, EditAll(d, user, edit, now).value) {
          EditAllEvolves(d, user, edit, now);
        }
        WebIsSound(t, user, draft, d => EditAll(d, user, edit, now));
      case WebReady(user, draft, now) => WebIsSound(t, user, draft, d => MarkReady(d, user, now));
      case WebCancel(user, draft, now) => WebIsSound(t, user, draft, d => CaptureDraft.Cancel(d, user, now));
      case WebConfirm(user, draft, env) => WebConfirmIsSound(t, user, draft, env);
    }
  }

  lemma WorkerStepIsSound(t: Tables, a: Step)
    requires Core(t) && Enabled(t, a) && (a.ClaimReceipt? || a.FinishReceipt? || a.ClaimNotices?)
    ensures Sound(t, Next(t, a))
  {
    match a {
      case ClaimReceipt(receipt, attempt, now, lease) => ClaimIsSound(t, receipt, attempt, now, lease);
      case FinishReceipt(receipt, attempt, output, chat, resultId, now) => FinishIsSound(t, receipt, attempt, output, chat, resultId, now);
      case ClaimNotices(batch, now, before) => NoticesAreSound(t, batch, now, before);
    }
  }

  lemma RetentionStepIsSound(t: Tables, a: Step)
    requires Core(t) && (a.ExpireDrafts? || a.RemoveReceiptData? || a.SetExpenseDeleted? || a.Unlink?)
    ensures Sound(t, Next(t, a))
  {
    match a {
      case ExpireDrafts(batch, cutoff, now) => ExpiryIsSound(t, batch, cutoff, now);
      case RemoveReceiptData(batch, cutoff, now) => RemovalIsSound(t, batch, cutoff, now);
      case SetExpenseDeleted(user, expense, deleted, now) => ExpenseDeletionIsSound(t, user, expense, deleted, now);
      case Unlink(user) => UnlinkIsSound(t, user);
    }
  }

  lemma NextIsSound(t: Tables, a: Step)
    requires Core(t) && Enabled(t, a)
    ensures Sound(t, Next(t, a))
  {
    match a {
      case ClaimReceipt(_, _, _, _) => WorkerStepIsSound(t, a);
      case FinishReceipt(_, _, _, _, _, _) => WorkerStepIsSound(t, a);
      case ClaimNotices(_, _, _) => WorkerStepIsSound(t, a);
      case ExpireDrafts(_, _, _) => RetentionStepIsSound(t, a);
      case RemoveReceiptData(_, _, _) => RetentionStepIsSound(t, a);
      case SetExpenseDeleted(_, _, _, _) => RetentionStepIsSound(t, a);
      case Unlink(_) => RetentionStepIsSound(t, a);
      case Update(_, _, _, _) => BotStepIsSound(t, a);
      case FirstCommit(_, _, _, _) => BotStepIsSound(t, a);
      case SecondCommit(_, _) => BotStepIsSound(t, a);
      case OtherUpdate(_, _) => BotStepIsSound(t, a);
      case PruneLedger(_, _) => BotStepIsSound(t, a);
      case StoreImage(_, _) => BotStepIsSound(t, a);
      case _ => WebStepIsSound(t, a);
    }
  }

  /** Every enabled step is sound, so it keeps the invariants. */
  lemma StepIsSound(t: Tables, a: Step)
    requires Core(t) && Enabled(t, a)
    ensures Sound(t, Next(t, a))
    ensures Core(Next(t, a))
  {
    NextIsSound(t, a);
    SoundKeepsCore(t, Next(t, a));
  }
}
