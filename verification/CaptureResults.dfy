/** What recognition leaves on a draft: a pointer to its receipt's own result, and never the user's values. */
module CaptureResults {
  import opened Wrappers
  import opened CaptureDraft
  import opened Conversations
  import opened CaptureFlow
  import opened CaptureFlowProofs
  import opened CaptureSystem
  import opened CaptureInvariants
  import opened CaptureSteps
  import opened CaptureRuns
  import opened CapturePointers

  /** A draft's result is a stored one, of its own receipt. */
  ghost predicate HasItsResult(t: Tables, d: Draft) {
    d.resultId.Some? ==>
      && d.resultId.value in t.results
      && d.receiptId == Some(t.results[d.resultId.value].receiptId)
  }

  ghost predicate AllHaveTheirResults(t: Tables) {
    forall d | d in t.drafts :: HasItsResult(t, t.drafts[d])
  }

  /** A draft row keeps its result, or has none. */
  predicate KeepsResult(t: Tables, d: Draft) {
    d.resultId.None? || (d.id in t.drafts && t.drafts[d.id].receiptId == d.receiptId && t.drafts[d.id].resultId == d.resultId)
  }

  lemma SamePointers(t: Tables, t': Tables)
    requires AllHaveTheirResults(t) && t'.results == t.results
    requires forall d | d in t'.drafts :: t'.drafts[d].id == d && KeepsResult(t, t'.drafts[d])
    ensures AllHaveTheirResults(t')
  {
    forall d | d in t'.drafts ensures HasItsResult(t', t'.drafts[d]) {
      assert d in t.drafts ==> HasItsResult(t, t.drafts[d]);
    }
  }

  // --- the bot ---

  lemma TextKeepsResult(c: Conversation, d: Draft, typed: Typed, env: Env)
    ensures OnText(c, d, typed, env).Accepted? ==> OnText(c, d, typed, env).value.draft.resultId == d.resultId
  {
  }

  lemma ButtonKeepsResult(c: Conversation, d: Draft, action: Action, env: Env)
    ensures OnButton(c, d, action, env).Accepted? ==> OnButton(c, d, action, env).value.draft.resultId == d.resultId
  {
  }

  lemma TurnKeepsResult(c: Conversation, active: Option<Draft>, input: Input, user: Id, env: Env)
    requires Respond(c, active, input, user, env).Accepted?
    ensures var turn := Respond(c, active, input, user, env).value;
      && (turn.edited.Some? ==> active.Some? && turn.edited.value.resultId == active.value.resultId)
      && (turn.started.Some? ==> turn.started.value.resultId.None?)
  {
    match input {
      case Text(typed) => if active.Some? { TextKeepsResult(c, active.value, typed, env); }
      case Press(_, action) => if active.Some? { ButtonKeepsResult(c, active.value, action, env); }
      case _ =>
    }
  }

  lemma WrittenPointers(t: Tables, user: Id, active: Option<Draft>, turn: Turn, env: Env, k: Conversation)
    requires Core(t) && AllHaveTheirResults(t) && RowsFit(t, user, active, turn, env)
    requires turn.edited.Some? ==> turn.edited.value.resultId == active.value.resultId
    requires turn.started.Some? ==> turn.started.value.resultId.None?
    ensures AllHaveTheirResults(Write(t, user, turn.(conversation := k)))
  {
    SamePointers(t, Write(t, user, turn.(conversation := k)));
  }

  lemma WriteKeepsResults(t: Tables, user: Id, input: Input, env: Env)
    requires Core(t) && AllHaveTheirResults(t) && FreshIds(t, env)
    requires Reply(t, user, input, env).Accepted?
    ensures forall c :: AllHaveTheirResults(Write(t, user, Reply(t, user, input, env).value.(conversation := c)))
  {
    var c := Lock(t, user, env.now);
    var active := ActiveDraft(t, user, c);
    var turn := Reply(t, user, input, env).value;
    LockedIsReady(t, user, env.now);
    RespondIsSound(c, active, input, user, env);
    TurnKeepsResult(c, active, input, user, env);
    TurnFits(t, user, turn, env);
    forall k ensures AllHaveTheirResults(Write(t, user, turn.(conversation := k))) {
      WrittenPointers(t, user, active, turn, env, k);
    }
  }

  lemma LedgerKeepsResults(t: Tables, ledger: map<int, Instant>)
    requires AllHaveTheirResults(t)
    ensures AllHaveTheirResults(t.(ledger := ledger))
  {
    forall d | d in t.drafts ensures HasItsResult(t.(ledger := ledger), t.drafts[d]) {
      assert HasItsResult(t, t.drafts[d]);
    }
  }

  lemma UpdateKeepsResults(t: Tables, update: int, user: Id, input: Input, env: Env)
    requires Core(t) && AllHaveTheirResults(t) && FreshIds(t, env)
    ensures AllHaveTheirResults(UpdateStep(t, update, user, input, env))
  {
    var turn := Reply(t, user, input, env);
    if turn.Accepted? {
      WriteKeepsResults(t, user, input, env);
      assert turn.value.(conversation := turn.value.conversation) == turn.value;
      LedgerKeepsResults(Write(t, user, turn.value), t.ledger[update := env.now]);
    }
  }

  lemma FirstCommitKeepsResults(t: Tables, update: int, user: Id, draft: Id, env: Env)
    requires Core(t) && AllHaveTheirResults(t) && FreshIds(t, env)
    ensures AllHaveTheirResults(Next(t, FirstCommit(update, user, draft, env)))
  {
    FirstCommitStepKeepsResults(t, update, user, draft, env);
    BegunKeepsResults(t, FirstCommitStep(t, update, user, draft, env), update, user);
  }

  lemma BegunKeepsResults(t: Tables, t': Tables, update: int, user: Id)
    requires AllHaveTheirResults(t')
    ensures AllHaveTheirResults(Begun(t, t', update, user))
  {
    SameDraftsAndResults(t', Begun(t, t', update, user));
  }

  lemma FirstCommitStepKeepsResults(t: Tables, update: int, user: Id, draft: Id, env: Env)
    requires Core(t) && AllHaveTheirResults(t) && FreshIds(t, env)
    ensures AllHaveTheirResults(FirstCommitStep(t, update, user, draft, env))
  {
    var turn := Reply(t, user, Press(draft, ConfirmDraft), env);
    if turn.Accepted? {
      WriteKeepsResults(t, user, Press(draft, ConfirmDraft), env);
      LedgerKeepsResults(Write(t, user, turn.value.(conversation := Lock(t, user, env.now))), t.ledger[update := env.now]);
    }
  }

  // --- the worker ---

  predicate UserSet<T(==)>(f: Field<T>) {
    f.Set? && f.source.User?
  }

  /** Nothing the user supplied has changed. */
  predicate UserValuesStay(a: Draft, b: Draft) {
    && (UserSet(a.amount) ==> b.amount == a.amount)
    && (UserSet(a.date) ==> b.date == a.date)
    && (UserSet(a.merchant) ==> b.merchant == a.merchant)
    && (UserSet(a.category) ==> b.category == a.category)
    && b.note == a.note
  }

  lemma DeliverKeepsUserValues(c: Conversation, d: Draft, result: Option<RecognitionResult>, chat: bool, now: Instant)
    requires Deliver(c, d, result, chat, now).Accepted?
    ensures UserValuesStay(d, Deliver(c, d, result, chat, now).value.draft)
  {
  }

  lemma FinishedResults(t: Tables, id: Id, attempt: Id, output: Option<Values>, chat: bool, resultId: Id, now: Instant, result: Option<RecognitionResult>)
    requires Core(t) && HoldsAttempt(t, id, attempt) && result == ResultOf(t.receipts[id], attempt, output, resultId)
    ensures FinishStep(t, id, attempt, output, chat, resultId, now).results
      == (if result.Some? then t.results[resultId := result.value] else t.results)
  {
    var found := DraftOfReceipt(t, id);
    if found.Some? && Open(t.drafts[found.value].state) {
      Delivers(t, now, t.drafts[found.value], id, result, chat);
    }
  }

  /** What finishing does to a draft: only the receipt's own, open draft changes, and no user value in it. */
  predicate Delivered(a: Draft, b: Draft, id: Id, result: Option<RecognitionResult>) {
    if a.receiptId == Some(id) && Open(a.state)
    then && b.receiptId == a.receiptId && UserValuesStay(a, b)
         && b.resultId == if result.Some? then Some(result.value.id) else a.resultId
    else b == a
  }

  lemma DeliveredDraft(c: Conversation, d: Draft, result: Option<RecognitionResult>, chat: bool, now: Instant, id: Id)
    requires c.Valid() && Open(d.state) && DraftRowOk(d) && d.receiptId == Some(id)
    requires c.active == Some(d.id) ==> PairOk(c, d)
    requires result.Some? ==> result.value.owner == d.owner && result.value.receiptId == id
    ensures Deliver(c, d, result, chat, now).Accepted?
    ensures Deliver(c, d, result, chat, now).value.draft.id == d.id
    ensures Delivered(d, Deliver(c, d, result, chat, now).value.draft, id, result)
  {
    DeliverIsSound(c, d, result, chat, now);
    DeliverKeepsUserValues(c, d, result, chat, now);
  }

  lemma OneDraftDelivered(t: Tables, drafts: map<Id, Draft>, id: Id, result: Option<RecognitionResult>, d: Id, after: Draft)
    requires ReceiptLinksOk(t) && HasDraft(t, id, d) && Delivered(t.drafts[d], after, id, result)
    requires drafts == t.drafts[d := after]
    ensures forall k | k in t.drafts :: k in drafts && Delivered(t.drafts[k], drafts[k], id, result)
  {
  }

  lemma FinishedDrafts(t: Tables, id: Id, attempt: Id, output: Option<Values>, chat: bool, resultId: Id, now: Instant)
    requires Core(t) && HoldsAttempt(t, id, attempt)
    ensures var t' := FinishStep(t, id, attempt, output, chat, resultId, now);
      && t'.drafts.Keys == t.drafts.Keys
      && forall k | k in t.drafts :: Delivered(t.drafts[k], t'.drafts[k], id, ResultOf(t.receipts[id], attempt, output, resultId))
  {
    var owner := t.receipts[id].owner;
    var c := Lock(t, owner, now);
    var found := DraftOfReceipt(t, id);
    var result := ResultOf(t.receipts[id], attempt, output, resultId);
    LockedIsReady(t, owner, now);
    FinishShape(t, id, attempt, output, chat, resultId, now);
    forall k | k in t.drafts && t.drafts[k].receiptId == Some(id) ensures found == Some(k) {
      assert HasDraft(t, id, k);
    }
    if found.Some? && Open(t.drafts[found.value].state) {
      DeliveredDraft(c, t.drafts[found.value], result, chat, now, id);
      OneDraftDelivered(t, FinishStep(t, id, attempt, output, chat, resultId, now).drafts, id, result, found.value,
                        Deliver(c, t.drafts[found.value], result, chat, now).value.draft);
    }
  }

  lemma FinishKeepsResults(t: Tables, id: Id, attempt: Id, output: Option<Values>, chat: bool, resultId: Id, now: Instant)
    requires Core(t) && AllHaveTheirResults(t) && resultId !in t.results
    ensures AllHaveTheirResults(FinishStep(t, id, attempt, output, chat, resultId, now))
  {
    if HoldsAttempt(t, id, attempt) {
      var t' := FinishStep(t, id, attempt, output, chat, resultId, now);
      FinishedResults(t, id, attempt, output, chat, resultId, now, ResultOf(t.receipts[id], attempt, output, resultId));
      FinishedDrafts(t, id, attempt, output, chat, resultId, now);
      forall k | k in t'.drafts ensures HasItsResult(t', t'.drafts[k]) {
        assert HasItsResult(t, t.drafts[k]) && Delivered(t.drafts[k], t'.drafts[k], id, ResultOf(t.receipts[id], attempt, output, resultId));
      }
    }
  }

  // --- everything else ---

  lemma RemovalKeepsResults(t: Tables, batch: set<Id>, cutoff: Instant, now: Instant)
    requires AllHaveTheirResults(t)
    ensures AllHaveTheirResults(RemoveStep(t, batch, cutoff, now))
  {
    var t' := RemoveStep(t, batch, cutoff, now);
    forall k | k in t'.drafts ensures HasItsResult(t', t'.drafts[k]) {
      assert HasItsResult(t, t.drafts[k]);
    }
  }

  lemma EditsKeepResult(d: Draft, caller: Id, edit: DraftEdit, now: Instant)
    requires EditAll(d, caller, edit, now).Accepted?
    ensures var e := EditAll(d, caller, edit, now).value; e.id == d.id && e.receiptId == d.receiptId && e.resultId == d.resultId
  {
  }

  lemma ChangeKeepsResults(t: Tables, user: Id, id: Id, change: Draft -> Result<Draft>)
    requires Core(t) && AllHaveTheirResults(t)
    requires forall d :: change(d).Accepted? ==>
      change(d).value.id == d.id && change(d).value.receiptId == d.receiptId && change(d).value.resultId == d.resultId
    ensures AllHaveTheirResults(WebStep(t, user, id, change))
  {
    var d := OwnedDraft(t, user, id);
    if d.Some? && change(d.value).Accepted? {
      OneDraftKeepsResult(t, WebStep(t, user, id, change), change(d.value).value);
    }
  }

  lemma OneDraftKeepsResult(t: Tables, t': Tables, d: Draft)
    requires AllHaveTheirResults(t) && KeepsResult(t, d) && t'.drafts == t.drafts[d.id := d] && t'.results == t.results
    ensures AllHaveTheirResults(t')
  {
    forall k | k in t'.drafts ensures HasItsResult(t', t'.drafts[k]) {
      assert k in t.drafts ==> HasItsResult(t, t.drafts[k]);
    }
  }

  lemma ConfirmKeepsResults(t: Tables, user: Id, id: Id, env: Env)
    requires Core(t) && AllHaveTheirResults(t)
    ensures AllHaveTheirResults(ConfirmOutcome(t, user, id, env).1)
  {
    var d := OwnedDraft(t, user, id);
    if d.Some? && !d.value.state.Confirmed? && ConfirmOpen(d.value, user, env).Saves? {
      OneDraftKeepsResult(t, ConfirmOutcome(t, user, id, env).1, ConfirmOpen(d.value, user, env).draft);
    }
  }

  lemma WebKeepsResults(t: Tables, a: Step)
    requires Core(t) && AllHaveTheirResults(t)
    requires a.WebEdit? || a.WebReady? || a.WebCancel? || a.WebConfirm?
    ensures AllHaveTheirResults(Next(t, a))
  {
    match a {
      case WebEdit(user, draft, edit, now) =>
        forall d | EditAll(d, user, edit, now).Accepted?
          ensures var e := EditAll(d, user, edit, now).value; e.id == d.id && e.receiptId == d.receiptId && e.resultId == d.resultId
        {
          EditsKeepResult(d, user, edit, now);
        }
        ChangeKeepsResults(t, user, draft, d => EditAll(d, user, edit, now));
      case WebReady(user, draft, now) => ChangeKeepsResults(t, user, draft, d => MarkReady(d, user, now));
      case WebCancel(user, draft, now) => ChangeKeepsResults(t, user, draft, d => CaptureDraft.Cancel(d, user, now));
      case WebConfirm(user, draft, env) => ConfirmKeepsResults(t, user, draft, env);
      case _ =>
    }
  }

  lemma SameDraftsAndResults(t: Tables, t': Tables)
    requires AllHaveTheirResults(t) && t'.drafts == t.drafts && t'.results == t.results
    ensures AllHaveTheirResults(t')
  {
    forall d | d in t'.drafts ensures HasItsResult(t', t'.drafts[d]) {
      assert HasItsResult(t, t.drafts[d]);
    }
  }

  lemma NewDraftHasNone(t: Tables, d: Draft)
    requires AllHaveTheirResults(t) && d.resultId.None?
    ensures AllHaveTheirResults(WithDraft(t, d))
  {
    forall k | k in WithDraft(t, d).drafts ensures HasItsResult(WithDraft(t, d), WithDraft(t, d).drafts[k]) {
      assert k in t.drafts ==> HasItsResult(t, t.drafts[k]);
    }
  }

  lemma ExpiryKeepsResults(t: Tables, batch: set<Id>, cutoff: Instant, now: Instant)
    requires AllHaveTheirResults(t)
    ensures AllHaveTheirResults(ExpireStep(t, batch, cutoff, now))
  {
    var t' := ExpireStep(t, batch, cutoff, now);
    forall k | k in t'.drafts ensures HasItsResult(t', t'.drafts[k]) {
      assert HasItsResult(t, t.drafts[k]);
    }
  }

  lemma RestKeepsResults(t: Tables, a: Step)
    requires AllHaveTheirResults(t)
    requires a.SecondCommit? || a.OtherUpdate? || a.ClaimReceipt? || a.StoreImage? || a.ClaimNotices? || a.PruneLedger? || a.SetExpenseDeleted? || a.Unlink?
    ensures AllHaveTheirResults(Next(t, a))
  {
    SameDraftsAndResults(t, Next(t, a));
  }

  lemma StepKeepsResults(t: Tables, a: Step)
    requires Core(t) && AllHaveTheirResults(t) && Enabled(t, a)
    ensures AllHaveTheirResults(Next(t, a))
  {
    match a {
      case Update(update, user, input, env) => UpdateKeepsResults(t, update, user, input, env);
      case FirstCommit(update, user, draft, env) => FirstCommitKeepsResults(t, update, user, draft, env);
      case FinishReceipt(receipt, attempt, output, chat, resultId, now) => FinishKeepsResults(t, receipt, attempt, output, chat, resultId, now);
      case RemoveReceiptData(batch, cutoff, now) => RemovalKeepsResults(t, batch, cutoff, now);
      case WebEdit(_, _, _, _) => WebKeepsResults(t, a);
      case WebReady(_, _, _) => WebKeepsResults(t, a);
      case WebCancel(_, _, _) => WebKeepsResults(t, a);
      case WebConfirm(_, _, _) => WebKeepsResults(t, a);
      case WebStart(user, env) => NewDraftHasNone(t, Start(env.freshDraft, user, WebManual, env.now));
      case ExpireDrafts(batch, cutoff, now) => ExpiryKeepsResults(t, batch, cutoff, now);
      case _ => RestKeepsResults(t, a);
    }
  }

  lemma DeletionKeepsResults(t: Tables, user: Id)
    requires Core(t) && AllHaveTheirResults(t)
    ensures AllHaveTheirResults(WithoutAccount(t, user))
  {
    var t' := WithoutAccount(t, user);
    forall d | d in t'.drafts ensures HasItsResult(t', t'.drafts[d]) {
      assert HasItsResult(t, t.drafts[d]);
    }
  }

  lemma {:induction false} ResultsAlways(run: Run, n: nat)
    requires IsRun(run) && n <= |run.steps|
    ensures AllHaveTheirResults(run.states[n])
  {
    if n > 0 {
      ResultsAlways(run, n - 1);
      CoreAlways(run, n - 1);
      assert Happens(run, n - 1);
      StepKeepsResults(run.states[n - 1], run.steps[n - 1]);
    } else if run.origin.Deletion? {
      var earlier := run.origin.earlier;
      ResultsAlways(earlier, |earlier.steps|);
      CoreAlways(earlier, |earlier.steps|);
      DeletionKeepsResults(earlier.states[|earlier.steps|], run.origin.user);
    }
  }

  /** In every reachable state a draft's result is stored, is its own receipt's, and has its owner. */
  lemma DraftsHaveTheirOwnResults(run: Run, n: nat, d: Id)
    requires IsRun(run) && n <= |run.steps|
    requires d in run.states[n].drafts && run.states[n].drafts[d].resultId.Some?
    ensures var t := run.states[n]; var k := t.drafts[d].resultId.value;
      k in t.results && Some(t.results[k].receiptId) == t.drafts[d].receiptId && t.results[k].owner == t.drafts[d].owner
  {
    ResultsAlways(run, n);
    CoreAlways(run, n);
    assert HasItsResult(run.states[n], run.states[n].drafts[d]);
  }

  /** Whatever a worker finishes and whenever, no value a user has supplied is overwritten. */
  lemma FinishingKeepsUserValues(run: Run, i: nat, d: Id)
    requires IsRun(run) && i < |run.steps| && run.steps[i].FinishReceipt? && d in run.states[i].drafts
    ensures d in run.states[i + 1].drafts && UserValuesStay(run.states[i].drafts[d], run.states[i + 1].drafts[d])
  {
    CoreAlways(run, i);
    assert Happens(run, i);
    var t, a := run.states[i], run.steps[i];
    if HoldsAttempt(t, a.receipt, a.attempt) {
      FinishedDrafts(t, a.receipt, a.attempt, a.output, a.chat, a.resultId, a.now);
      assert Delivered(t.drafts[d], run.states[i + 1].drafts[d], a.receipt, ResultOf(t.receipts[a.receipt], a.attempt, a.output, a.resultId));
    }
  }
}
