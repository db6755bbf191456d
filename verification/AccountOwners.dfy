/** Why account deletion never meets somebody else's row: what the capture protocol keeps, owners share. */
module AccountOwners {
  import opened CaptureDraft
  import opened CaptureSystem
  import opened CaptureInvariants
  import T = CaptureRuns
  import R = CaptureResults
  import A = AccountDeletion

  /** The database holds these capture tables. */
  ghost predicate Holds(d: A.Database, t: Tables) {
    && d.conversations == t.conversations && d.drafts == t.drafts && d.expenses == t.expenses
    && d.receipts == t.receipts && d.results == t.results && d.images == t.images
  }

  lemma LinkedOwnersAgree(t: Tables, d: A.Database)
    requires Core(t) && Holds(d, t)
    ensures A.OwnersAgree(d)
    ensures forall k | k in d.results :: d.results[k].receiptId in d.receipts && d.receipts[d.results[k].receiptId].owner == d.results[k].owner
  {
    forall k | k in d.drafts && d.drafts[k].expenseId.Some? && d.drafts[k].expenseId.value in d.expenses
      ensures d.expenses[d.drafts[k].expenseId.value].owner == d.drafts[k].owner
    {
      assert t.drafts[k].state.Confirmed?;
    }
    forall k | k in d.expenses
      ensures d.expenses[k].draftId in d.drafts && d.drafts[d.expenses[k].draftId].owner == d.expenses[k].owner
      ensures d.expenses[k].receiptId.Some? && d.expenses[k].receiptId.value in d.receipts ==> d.receipts[d.expenses[k].receiptId.value].owner == d.expenses[k].owner
    {
      assert Linked(t.drafts[t.expenses[k].draftId], t.expenses[k]);
    }
  }

  /** In every reachable state of the capture protocol, no foreign key stands in the way of deleting any user. */
  lemma DeletionIsAlwaysPossible(run: T.Run, n: nat, d: A.Database, u: Id)
    requires T.IsRun(run) && n <= |run.steps| && Holds(d, run.states[n])
    ensures A.Free(d, u)
  {
    T.CoreAlways(run, n);
    LinkedOwnersAgree(run.states[n], d);
    A.AgreementFrees(d, u);
  }

  lemma ResultsAgreeToo(run: T.Run, n: nat, d: A.Database)
    requires T.IsRun(run) && n <= |run.steps| && Holds(d, run.states[n])
    ensures A.ResultsAgree(d)
  {
    T.CoreAlways(run, n);
    LinkedOwnersAgree(run.states[n], d);
    forall k | k in d.drafts && d.drafts[k].resultId.Some? && d.drafts[k].resultId.value in d.results
      ensures d.results[d.drafts[k].resultId.value].owner == d.drafts[k].owner
    {
      R.DraftsHaveTheirOwnResults(run, n, k);
    }
  }

  lemma DeletedTables(t: Tables, d: A.Database, u: Id, now: Instant, auditId: Id)
    requires Holds(d, t) && A.ResultsAgree(d)
    ensures Holds(A.Deleted(d, u, now, auditId), WithoutAccount(t, u))
  {
    A.OthersKeepTheirCaptures(d, u, now, auditId);
    SameTables(t, d, A.Deleted(d, u, now, auditId), u);
  }

  lemma SameTables(t: Tables, d: A.Database, x: A.Database, u: Id)
    requires Holds(d, t) && x.conversations == d.conversations - {u}
    requires x.drafts == d.drafts - A.DraftsOf(d.drafts, u) && x.expenses == d.expenses - A.ExpensesOf(d.expenses, u)
    requires x.receipts == d.receipts - A.ReceiptsOf(d.receipts, u) && x.results == d.results - A.ResultsOf(d.results, u)
    requires x.images == d.images - A.ReceiptsOf(d.receipts, u)
    ensures Holds(x, WithoutAccount(t, u))
  {
  }

  /**
   And deleting leaves exactly the capture tables the protocol goes on with: the user's own rows and
   images are gone and every other one stays as it was.
   */
  lemma DeletionTakesOnlyTheUsersRows(run: T.Run, n: nat, d: A.Database, u: Id, now: Instant, auditId: Id)
    requires T.IsRun(run) && n <= |run.steps| && Holds(d, run.states[n])
    ensures A.Free(d, u)
    ensures Holds(A.Deleted(d, u, now, auditId), WithoutAccount(run.states[n], u))
    ensures Core(WithoutAccount(run.states[n], u))
  {
    DeletionIsAlwaysPossible(run, n, d, u);
    ResultsAgreeToo(run, n, d);
    DeletedTables(run.states[n], d, u, now, auditId);
    T.CoreAlways(run, n);
    T.DeletionKeepsCore(run.states[n], u);
  }

  /** So after a deletion the protocol runs on, and whatever holds in every run holds there. */
  lemma RunsGoOn(run: T.Run, d: A.Database, u: Id, now: Instant, auditId: Id) returns (next: T.Run)
    requires T.IsRun(run) && Holds(d, run.states[|run.steps|])
    ensures T.IsRun(next) && next.origin == T.Deletion(run, u) && Holds(A.Deleted(d, u, now, auditId), next.states[0])
  {
    DeletionTakesOnlyTheUsersRows(run, |run.steps|, d, u, now, auditId);
    next := T.Run(T.Deletion(run, u), [WithoutAccount(run.states[|run.steps|], u)], []);
  }
}
