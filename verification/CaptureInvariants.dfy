/**
 What every step keeps. `Sound` lists, row by row, how one step may change the tables; the
 invariants follow from it once and for all, and so do the facts about whole runs.
 */
module CaptureInvariants {
  import opened Wrappers
  import opened CaptureDraft
  import opened Conversations
  import opened Receipts
  import opened Expenses
  import opened CaptureFlowProofs
  import opened CaptureSystem

  // --- invariants ---

  ghost predicate DraftsOk(t: Tables) {
    forall d | d in t.drafts :: t.drafts[d].id == d && DraftRowOk(t.drafts[d])
  }

  /** A receipt draft and its receipt exist together, one to one, with one owner. */
  ghost predicate ReceiptLinksOk(t: Tables) {
    && (forall d | d in t.drafts && t.drafts[d].receiptId.Some? ::
          && t.drafts[d].receiptId.value in t.receipts
          && t.receipts[t.drafts[d].receiptId.value].owner == t.drafts[d].owner)
    && (forall a, b | a in t.drafts && b in t.drafts && t.drafts[a].receiptId.Some? && t.drafts[a].receiptId == t.drafts[b].receiptId :: a == b)
  }

  ghost predicate ReceiptsOk(t: Tables) {
    forall r | r in t.receipts ::
      && t.receipts[r].id == r
      && ReceiptRowOk(t.receipts[r])
      && (t.receipts[r].attempt.Some? ==> t.receipts[r].attempt.value in t.attempts)
  }

  /** Once its image is removed a receipt rests: nobody processes it and its draft is closed. */
  ghost predicate RemovedOk(t: Tables) {
    && (forall r | r in t.receipts && t.receipts[r].imageRemovedAt.Some? :: !t.receipts[r].state.Processing?)
    && (forall d | d in t.drafts && t.drafts[d].receiptId.Some? && t.drafts[d].receiptId.value in t.receipts
          && t.receipts[t.drafts[d].receiptId.value].imageRemovedAt.Some? :: !Open(t.drafts[d].state))
  }

  /** Every result is its receipt's only one, made by the attempt that finished it. */
  ghost predicate ResultsOk(t: Tables) {
    && (forall k | k in t.results ::
          && t.results[k].id == k
          && t.results[k].receiptId in t.receipts
          && t.receipts[t.results[k].receiptId].state.Recognized?
          && t.receipts[t.results[k].receiptId].attempt == Some(t.results[k].attemptId)
          && t.receipts[t.results[k].receiptId].owner == t.results[k].owner)
    && (forall a, b | a in t.results && b in t.results && t.results[a].receiptId == t.results[b].receiptId :: a == b)
  }

  predicate Linked(d: Draft, e: Expense) {
    && d.state.Confirmed? && d.expenseId == Some(e.id) && e.draftId == d.id
    && e.owner == d.owner && e.receiptId == d.receiptId && e.source == d.source
  }

  /** A draft is confirmed exactly when its one expense exists. */
  ghost predicate ExpensesOk(t: Tables) {
    && (forall d | d in t.drafts && t.drafts[d].state.Confirmed? ::
          t.drafts[d].expenseId.Some? && t.drafts[d].expenseId.value in t.expenses && Linked(t.drafts[d], t.expenses[t.drafts[d].expenseId.value]))
    && (forall e | e in t.expenses ::
          t.expenses[e].id == e && t.expenses[e].draftId in t.drafts && Linked(t.drafts[t.expenses[e].draftId], t.expenses[e]))
  }

  predicate ConversationOk(t: Tables, user: Id, c: Conversation) {
    && c.Valid()
    && (c.active.Some? ==>
          && c.active.value in t.drafts
          && t.drafts[c.active.value].owner == user
          && !t.drafts[c.active.value].source.WebManual?
          && (Open(t.drafts[c.active.value].state) ==> PairOk(c, t.drafts[c.active.value])))
  }

  ghost predicate ConversationsOk(t: Tables) {
    forall u | u in t.conversations :: ConversationOk(t, u, t.conversations[u])
  }

  ghost predicate Core(t: Tables) {
    DraftsOk(t) && ReceiptLinksOk(t) && ReceiptsOk(t) && RemovedOk(t) && ResultsOk(t) && ExpensesOk(t) && ConversationsOk(t)
  }

  ghost predicate AllComplete(t: Tables) {
    forall d | d in t.drafts && !t.drafts[d].source.WebManual? :: Complete(t.drafts[d])
  }

  // --- one step, row by row ---

  /** Receipts only move on: finished once, and after image removal not at all. */
  predicate ReceiptEvolves(a: Receipt, b: Receipt) {
    && a.id == b.id && a.owner == b.owner && a.createdAt == b.createdAt
    && (Finished(a) ==> b.state == a.state && b.attempt == a.attempt)
    && (a.imageRemovedAt.Some? ==> b.imageRemovedAt == a.imageRemovedAt && b.state == a.state && b.attempt == a.attempt)
    && (a.noticeSentAt.Some? ==> b.noticeSentAt == a.noticeSentAt)
  }

  predicate NewDraft(t: Tables, t': Tables, d: Draft) {
    && DraftRowOk(d) && !d.state.Confirmed? && !d.state.ReadyForReview?
    && (d.receiptId.Some? ==>
          && d.receiptId.value !in t.receipts && d.receiptId.value in t'.receipts
          && t'.receipts[d.receiptId.value].owner == d.owner)
  }

  ghost predicate SoundDrafts(t: Tables, t': Tables) {
    && (forall d | d in t.drafts :: d in t'.drafts && Evolves(t.drafts[d], t'.drafts[d]))
    && (forall d | d in t'.drafts && d !in t.drafts :: t'.drafts[d].id == d && NewDraft(t, t', t'.drafts[d]))
    && (forall a, b | a in t'.drafts && b in t'.drafts && a !in t.drafts && b !in t.drafts :: a == b)
  }

  ghost predicate SoundReceipts(t: Tables, t': Tables) {
    && t.attempts.Keys <= t'.attempts.Keys
    && (forall r | r in t.receipts :: r in t'.receipts && ReceiptEvolves(t.receipts[r], t'.receipts[r]))
    && (forall r | r in t'.receipts ::
          && t'.receipts[r].id == r && ReceiptRowOk(t'.receipts[r])
          && (t'.receipts[r].attempt.Some? ==> t'.receipts[r].attempt.value in t'.attempts)
          && (t'.receipts[r].imageRemovedAt.Some? ==> !t'.receipts[r].state.Processing?))
    && (forall r | r in t'.receipts && r !in t.receipts :: t'.receipts[r].imageRemovedAt.None?)
    && (forall r, d | r in t.receipts && r in t'.receipts && t.receipts[r].imageRemovedAt.None? && t'.receipts[r].imageRemovedAt.Some?
          && d in t'.drafts && t'.drafts[d].receiptId == Some(r) :: !Open(t'.drafts[d].state))
  }

  ghost predicate SoundResults(t: Tables, t': Tables) {
    && (forall k | k in t'.results :: (k in t.results && t'.results[k] == t.results[k]) ||
          (k !in t.results && t'.results[k].id == k && NewResult(t, t', t'.results[k])))
    && (forall a, b | a in t'.results && b in t'.results && a !in t.results && b !in t.results :: a == b)
  }

  /** A result is written in the step that finishes its attempt. */
  predicate NewResult(t: Tables, t': Tables, x: RecognitionResult) {
    && HoldsAttempt(t, x.receiptId, x.attemptId)
    && x.receiptId in t'.receipts && t'.receipts[x.receiptId].state.Recognized?
    && t'.receipts[x.receiptId].attempt == Some(x.attemptId) && t'.receipts[x.receiptId].owner == x.owner
  }

  ghost predicate SoundExpenses(t: Tables, t': Tables) {
    && (forall e | e in t.expenses :: e in t'.expenses && SameOrigin(t.expenses[e], t'.expenses[e]))
    && (forall e | e in t'.expenses && e !in t.expenses ::
          && t'.expenses[e].id == e && t'.expenses[e].draftId in t.drafts
          && !t.drafts[t'.expenses[e].draftId].state.Confirmed?
          && t'.expenses[e].draftId in t'.drafts && SavedAs(t'.drafts[t'.expenses[e].draftId], t'.expenses[e]))
    && (forall d | d in t.drafts && d in t'.drafts && !t.drafts[d].state.Confirmed? && t'.drafts[d].state.Confirmed? ::
          && OnlyConfirmed(t.drafts[d], t'.drafts[d])
          && t'.drafts[d].expenseId.Some? && t'.drafts[d].expenseId.value !in t.expenses
          && t'.drafts[d].expenseId.value in t'.expenses && Linked(t'.drafts[d], t'.expenses[t'.drafts[d].expenseId.value]))
  }

  ghost predicate Sound(t: Tables, t': Tables) {
    SoundDrafts(t, t') && SoundReceipts(t, t') && SoundResults(t, t') && SoundExpenses(t, t') && ConversationsOk(t')
  }

  lemma KeepsDrafts(t: Tables, t': Tables)
    requires DraftsOk(t) && SoundDrafts(t, t')
    ensures DraftsOk(t')
  {
    forall d | d in t'.drafts ensures t'.drafts[d].id == d && DraftRowOk(t'.drafts[d]) {
      if d in t.drafts {
        assert Evolves(t.drafts[d], t'.drafts[d]);
      }
    }
  }

  lemma KeepsReceiptLinks(t: Tables, t': Tables)
    requires ReceiptLinksOk(t) && SoundDrafts(t, t') && SoundReceipts(t, t')
    ensures ReceiptLinksOk(t')
  {
    forall d | d in t.drafts ensures t'.drafts[d].receiptId == t.drafts[d].receiptId && t'.drafts[d].owner == t.drafts[d].owner {
      assert Evolves(t.drafts[d], t'.drafts[d]);
    }
  }

  lemma KeepsRemoved(t: Tables, t': Tables)
    requires ReceiptLinksOk(t) && RemovedOk(t) && SoundDrafts(t, t') && SoundReceipts(t, t')
    ensures RemovedOk(t')
  {
    forall d | d in t'.drafts && t'.drafts[d].receiptId.Some? && t'.drafts[d].receiptId.value in t'.receipts
        && t'.receipts[t'.drafts[d].receiptId.value].imageRemovedAt.Some?
      ensures !Open(t'.drafts[d].state)
    {
      if d in t.drafts {
        assert Evolves(t.drafts[d], t'.drafts[d]);
      }
    }
  }

  lemma KeepsResults(t: Tables, t': Tables)
    requires ResultsOk(t) && SoundReceipts(t, t') && SoundResults(t, t')
    ensures ResultsOk(t')
  {
    forall k | k in t'.results && k in t.results
      ensures ReceiptEvolves(t.receipts[t.results[k].receiptId], t'.receipts[t.results[k].receiptId]) && t'.results[k] == t.results[k]
    {
    }
  }

  lemma KeepsExpenses(t: Tables, t': Tables)
    requires DraftsOk(t) && ExpensesOk(t) && SoundDrafts(t, t') && SoundExpenses(t, t')
    ensures ExpensesOk(t')
  {
    forall d | d in t'.drafts && t'.drafts[d].state.Confirmed?
      ensures t'.drafts[d].expenseId.Some? && t'.drafts[d].expenseId.value in t'.expenses && Linked(t'.drafts[d], t'.expenses[t'.drafts[d].expenseId.value])
    {
      assert d in t.drafts && Evolves(t.drafts[d], t'.drafts[d]);
    }
    forall e | e in t'.expenses
      ensures t'.expenses[e].id == e && t'.expenses[e].draftId in t'.drafts && Linked(t'.drafts[t'.expenses[e].draftId], t'.expenses[e])
    {
      if e in t.expenses {
        var d := t.expenses[e].draftId;
        assert SameOrigin(t.expenses[e], t'.expenses[e]) && Evolves(t.drafts[d], t'.drafts[d]);
      }
    }
  }

  lemma SoundKeepsCore(t: Tables, t': Tables)
    requires Core(t) && Sound(t, t')
    ensures Core(t')
  {
    KeepsDrafts(t, t');
    KeepsReceiptLinks(t, t');
    assert ReceiptsOk(t');
    KeepsRemoved(t, t');
    KeepsResults(t, t');
    KeepsExpenses(t, t');
  }

  lemma NothingIsSound(t: Tables)
    requires Core(t)
    ensures Sound(t, t)
  {
    forall d | d in t.drafts ensures Evolves(t.drafts[d], t.drafts[d]) {}
  }
}
