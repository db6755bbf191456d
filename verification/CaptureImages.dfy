/**
 Stored images and their removal. Storing is not fenced: a worker whose attempt is over may still
 store what it downloaded. So an image comes back after its removal by such a store, and by nothing else.
 */
module CaptureImages {
  import opened Wrappers
  import opened CaptureDraft
  import opened Conversations
  import opened Receipts
  import opened CaptureFlow
  import opened CaptureSystem
  import opened CaptureInvariants
  import opened CaptureSteps
  import opened CaptureRuns
  import opened CaptureTheorems

  predicate IsRemoved(t: Tables, r: Id) {
    r in t.receipts && t.receipts[r].imageRemovedAt.Some?
  }

  /** The image of a receipt is there although it was removed. */
  predicate CameBack(t: Tables, r: Id) {
    IsRemoved(t, r) && r in t.images
  }

  ghost predicate ImagesHaveReceipts(t: Tables) {
    forall r | r in t.images :: r in t.receipts
  }

  // --- one step ---

  /** Only removal removes: no other step changes what is recorded about it. */
  lemma OthersRemoveNothing(t: Tables, a: Step, r: Id)
    requires Core(t) && Enabled(t, a) && !a.RemoveReceiptData? && r in t.receipts
    ensures r in Next(t, a).receipts && Next(t, a).receipts[r].imageRemovedAt == t.receipts[r].imageRemovedAt
  {
    match a {
      case Update(update, user, input, env) => UpdateKeepsReceipts(t, update, user, input, env, Reply(t, user, input, env), r);
      case FirstCommit(update, user, draft, env) => FirstCommitKeepsReceipts(t, update, user, draft, env, Reply(t, user, Press(draft, ConfirmDraft), env), r);
      case FinishReceipt(receipt, attempt, output, chat, resultId, now) => FinishRemovesNothing(t, receipt, attempt, output, chat, resultId, now, r);
      case _ => RestRemovesNothing(t, a, r);
    }
  }

  lemma FinishRemovesNothing(t: Tables, id: Id, attempt: Id, output: Option<Values>, chat: bool, resultId: Id, now: Instant, r: Id)
    requires r in t.receipts
    ensures var t' := FinishStep(t, id, attempt, output, chat, resultId, now);
      r in t'.receipts && t'.receipts[r].imageRemovedAt == t.receipts[r].imageRemovedAt
  {
    if HoldsAttempt(t, id, attempt) {
      var closed := CloseAttempt(t, id, attempt, output, resultId, now);
      assert FinishStep(t, id, attempt, output, chat, resultId, now).receipts in {t.receipts, closed.receipts};
    }
  }

  lemma RestRemovesNothing(t: Tables, a: Step, r: Id)
    requires r in t.receipts && !a.Update? && !a.FirstCommit? && !a.FinishReceipt? && !a.RemoveReceiptData?
    ensures r in Next(t, a).receipts && Next(t, a).receipts[r].imageRemovedAt == t.receipts[r].imageRemovedAt
  {
  }

  lemma OthersKeepImages(t: Tables, a: Step)
    requires !a.StoreImage? && !a.RemoveReceiptData?
    ensures Next(t, a).images == t.images
  {
    match a {
      case FinishReceipt(receipt, attempt, output, chat, resultId, now) => FinishLeavesAlone(t, receipt, attempt, output, chat, resultId, now);
      case Update(update, user, input, env) => UpdateImages(t, update, user, input, env, Reply(t, user, input, env));
      case FirstCommit(update, user, draft, env) => FirstCommitImages(t, update, user, draft, env, Reply(t, user, Press(draft, ConfirmDraft), env));
      case _ =>
    }
  }

  lemma UpdateImages(t: Tables, update: int, user: Id, input: Input, env: Env, turn: Result<Turn>)
    requires turn == Reply(t, user, input, env)
    ensures UpdateStep(t, update, user, input, env).images == t.images
  {
  }

  lemma FirstCommitImages(t: Tables, update: int, user: Id, draft: Id, env: Env, turn: Result<Turn>)
    requires turn == Reply(t, user, Press(draft, ConfirmDraft), env)
    ensures FirstCommitStep(t, update, user, draft, env).images == t.images
  {
  }

  lemma NewReceiptsAreNotRemoved(t: Tables, t': Tables, r: Id)
    requires SoundReceipts(t, t') && r in t'.receipts && r !in t.receipts
    ensures !IsRemoved(t', r)
  {
  }

  /** The attempt a store belongs to is over: the receipt is finished, or another attempt holds it. */
  predicate IsStale(t: Tables, a: Step) {
    a.StoreImage? && !HoldsAttempt(t, a.receipt, a.attempt)
  }

  /** `a` stores the image of receipt `r`, which was removed before. */
  predicate StoresRemoved(t: Tables, a: Step, r: Id) {
    a.StoreImage? && a.receipt == r && IsRemoved(t, r)
  }

  lemma CurrentMeansKept(t: Tables, r: Id, attempt: Id)
    requires Core(t) && HoldsAttempt(t, r, attempt)
    ensures !IsRemoved(t, r)
  {
  }

  lemma StepKeepsImageLinks(t: Tables, a: Step)
    requires Core(t) && Enabled(t, a) && ImagesHaveReceipts(t)
    ensures ImagesHaveReceipts(Next(t, a))
  {
    StepIsSound(t, a);
    if !a.StoreImage? && !a.RemoveReceiptData? {
      OthersKeepImages(t, a);
    }
  }

  lemma RemovalTakesImages(t: Tables, batch: set<Id>, cutoff: Instant, now: Instant, r: Id)
    ensures CameBack(RemoveStep(t, batch, cutoff, now), r) <==> CameBack(t, r)
  {
  }

  lemma OthersBringNothingBack(t: Tables, t': Tables, r: Id)
    requires ImagesHaveReceipts(t) && SoundReceipts(t, t') && t'.images == t.images
    requires r in t.receipts && r in t'.receipts ==> t'.receipts[r].imageRemovedAt == t.receipts[r].imageRemovedAt
    ensures CameBack(t', r) <==> CameBack(t, r)
  {
    if r !in t.receipts && r in t'.receipts {
      NewReceiptsAreNotRemoved(t, t', r);
    }
  }

  lemma StoringBringsBack(t: Tables, a: Step, r: Id)
    requires a.StoreImage?
    ensures CameBack(Next(t, a), r) <==> CameBack(t, r) || StoresRemoved(t, a, r)
  {
  }

  /** An image comes back in a step exactly when the step stores it after its removal. */
  lemma StepBringsBackIff(t: Tables, a: Step, r: Id)
    requires Core(t) && Enabled(t, a) && ImagesHaveReceipts(t)
    ensures CameBack(Next(t, a), r) <==> CameBack(t, r) || StoresRemoved(t, a, r)
  {
    if a.StoreImage? {
      StoringBringsBack(t, a, r);
    } else if a.RemoveReceiptData? {
      RemovalTakesImages(t, a.batch, a.cutoff, a.now, r);
    } else {
      StepIsSound(t, a);
      OthersKeepImages(t, a);
      if r in t.receipts {
        OthersRemoveNothing(t, a, r);
      }
      OthersBringNothingBack(t, Next(t, a), r);
    }
  }

  // --- whole runs ---

  lemma DeletionKeepsImageLinks(t: Tables, user: Id)
    requires ImagesHaveReceipts(t)
    ensures ImagesHaveReceipts(WithoutAccount(t, user))
    ensures forall r :: CameBack(WithoutAccount(t, user), r) <==> CameBack(t, r) && t.receipts[r].owner != user
  {
  }

  lemma {:induction false} ImageLinksAlways(run: Run, n: nat)
    requires IsRun(run) && n <= |run.steps|
    ensures ImagesHaveReceipts(run.states[n])
  {
    if n > 0 {
      ImageLinksAlways(run, n - 1);
      CoreAlways(run, n - 1);
      assert Happens(run, n - 1);
      StepKeepsImageLinks(run.states[n - 1], run.steps[n - 1]);
    } else if run.origin.Deletion? {
      var earlier := run.origin.earlier;
      ImageLinksAlways(earlier, |earlier.steps|);
      DeletionKeepsImageLinks(earlier.states[|earlier.steps|], run.origin.user);
    }
  }

  /** Before moment `n` some step stored the image of the removed receipt `r`, which still exists. */
  ghost predicate WasStoredLate(run: Run, n: nat, r: Id)
    requires IsRun(run) && n <= |run.steps|
    decreases run, n
  {
    if n > 0 then WasStoredLate(run, n - 1, r) || StoresRemoved(run.states[n - 1], run.steps[n - 1], r)
    else run.origin.Deletion? && r in run.states[0].receipts && WasStoredLate(run.origin.earlier, |run.origin.earlier.steps|, r)
  }

  /**
   The image of a removed receipt is there exactly when it was stored again after the removal; and
   whenever that happens, the store's attempt is over.
   */
  lemma {:induction false} ImagesComeBackIff(run: Run, n: nat, r: Id)
    requires IsRun(run) && n <= |run.steps|
    ensures CameBack(run.states[n], r) <==> WasStoredLate(run, n, r)
    ensures n < |run.steps| && StoresRemoved(run.states[n], run.steps[n], r) ==> IsStale(run.states[n], run.steps[n])
    decreases run, n
  {
    CoreAlways(run, n);
    if n > 0 {
      ImagesComeBackIff(run, n - 1, r);
      CoreAlways(run, n - 1);
      ImageLinksAlways(run, n - 1);
      assert Happens(run, n - 1);
      StepBringsBackIff(run.states[n - 1], run.steps[n - 1], r);
    } else if run.origin.Deletion? {
      var earlier := run.origin.earlier;
      ImagesComeBackIff(earlier, |earlier.steps|, r);
      ImageLinksAlways(earlier, |earlier.steps|);
      DeletionKeepsImageLinks(earlier.states[|earlier.steps|], run.origin.user);
    }
  }

  ghost predicate NoStaleStoreBefore(run: Run, n: nat)
    requires IsRun(run) && n <= |run.steps|
  {
    && (forall i | 0 <= i < n :: !IsStale(run.states[i], run.steps[i]))
    && (run.origin.Deletion? ==> NoStaleStoreBefore(run.origin.earlier, |run.origin.earlier.steps|))
  }

  lemma {:induction false} NothingStoredLate(run: Run, n: nat, r: Id)
    requires IsRun(run) && n <= |run.steps| && NoStaleStoreBefore(run, n)
    ensures !WasStoredLate(run, n, r)
    decreases run, n
  {
    if n > 0 {
      NothingStoredLate(run, n - 1, r);
      ImagesComeBackIff(run, n - 1, r);
    } else if run.origin.Deletion? {
      NothingStoredLate(run.origin.earlier, |run.origin.earlier.steps|, r);
    }
  }

  /** If only current attempts stored images, a removed image would stay removed. */
  lemma RemovalLastsUnderFencing(run: Run, n: nat, r: Id)
    requires IsRun(run) && n <= |run.steps| && NoStaleStoreBefore(run, n)
    ensures !CameBack(run.states[n], r)
  {
    NothingStoredLate(run, n, r);
    ImagesComeBackIff(run, n, r);
  }

  /**
   What a check of the attempt at the store would decide: a store by the current attempt never brings
   an image back, and one by an attempt that is over does so exactly when the receipt was removed.
   */
  lemma StoreBringsBackIff(run: Run, i: nat)
    requires IsRun(run) && i < |run.steps| && run.steps[i].StoreImage?
    ensures var t, r := run.states[i], run.steps[i].receipt;
      && (CameBack(run.states[i + 1], r) <==> !HoldsAttempt(t, r, run.steps[i].attempt) && IsRemoved(t, r))
      && forall other | other != r :: CameBack(run.states[i + 1], other) <==> CameBack(t, other)
  {
    var t, a := run.states[i], run.steps[i];
    CoreAlways(run, i);
    ImageLinksAlways(run, i);
    assert Happens(run, i);
    StepBringsBackIff(t, a, a.receipt);
    if HoldsAttempt(t, a.receipt, a.attempt) {
      CurrentMeansKept(t, a.receipt, a.attempt);
    }
    forall other | other != a.receipt ensures CameBack(run.states[i + 1], other) <==> CameBack(t, other) {
      StepBringsBackIff(t, a, other);
    }
  }

  // --- (an example of a run in which a removed image comes back) ---

  const PHOTO := Photo("f")

  // The program's own lease, and how long it keeps a receipt's image after its draft is finished.
  const RECEIPT_LEASE: int := 2 * 60 * 1_000_000
  const RECEIPT_DATA_RETENTION: int := 30 * 24 * 60 * 60 * 1_000_000

  const FAILED_AT: Instant := RECEIPT_LEASE + 1
  const CANCELLED_AT: Instant := RECEIPT_LEASE + 2
  const REMOVED_AT: Instant := CANCELLED_AT + RECEIPT_DATA_RETENTION

  lemma PhotoOpensADraft() returns (t: Tables)
    ensures t == UpdateStep(EMPTY, 1, 7, PHOTO, FIRST) && Enabled(EMPTY, Update(1, 7, PHOTO, FIRST))
    ensures t.drafts == map[0 := Touch(StartFromReceipt(0, 7, 0, 0).(date := Set(100, Default)), 0)]
    ensures t.receipts == map[0 := Receive(0, 7, "f", 0)] && t.results == map[] && t.attempts == map[]
    ensures t.conversations == map[7 := Idle(0).WithDraft(0, Awaiting.Nothing, false, 0)]
  {
    t := UpdateStep(EMPTY, 1, 7, PHOTO, FIRST);
  }

  lemma FailingOpensTheDraft(t: Tables, d: Draft)
    requires t.drafts == map[0 := d] && d.id == 0 && d.receiptId == Some(0) && d.owner == 7 && d.state.AwaitingRecognition?
    requires 0 in t.receipts && t.receipts[0].owner == 7 && HoldsAttempt(t, 0, 1) && 7 in t.conversations && t.conversations[7].active == Some(0)
    ensures var t' := FinishStep(t, 0, 1, None, false, 0, FAILED_AT);
      && t'.drafts == map[0 := ContinueManually(d, FAILED_AT)] && t'.attempts == t.attempts
      && t'.receipts == t.receipts[0 := Receipts.Finish(t.receipts[0], 1, false, FAILED_AT).value]
  {
    assert HasDraft(t, 0, 0);
  }

  lemma CancelledReceiptIsRemoved(t: Tables, d: Draft)
    requires t.drafts == map[0 := d] && d.receiptId == Some(0) && d.state.Cancelled? && d.confirmedAt.None? && d.modifiedAt == CANCELLED_AT
    requires 0 in t.receipts && t.receipts[0].imageRemovedAt.None? && Finished(t.receipts[0])
    ensures var t' := RemoveStep(t, {0}, CANCELLED_AT, REMOVED_AT); IsRemoved(t', 0) && 0 !in t'.images && t'.attempts == t.attempts
    ensures !HoldsAttempt(RemoveStep(t, {0}, CANCELLED_AT, REMOVED_AT), 0, 0)
  {
    assert HasDraft(t, 0, 0);
  }

  const TO_FAILURE: seq<Step> := [
    Update(1, 7, PHOTO, FIRST), ClaimReceipt(0, 0, 0, RECEIPT_LEASE), ClaimReceipt(0, 1, RECEIPT_LEASE, RECEIPT_LEASE), FinishReceipt(0, 1, None, false, 0, FAILED_AT)]

  const TO_REMOVAL: seq<Step> := [WebCancel(7, 0, CANCELLED_AT), RemoveReceiptData({0}, REMOVED_AT - RECEIPT_DATA_RETENTION, REMOVED_AT)]

  lemma FirstWorkerClaims() returns (run: Run, t: Tables)
    ensures IsRun(run) && run.steps == TO_FAILURE[..2] && t == run.states[2]
    ensures t.drafts == map[0 := Touch(StartFromReceipt(0, 7, 0, 0).(date := Set(100, Default)), 0)]
    ensures t.receipts == map[0 := Claim(Receive(0, 7, "f", 0), 0, 0, RECEIPT_LEASE).value] && t.attempts == map[0 := 0]
    ensures 7 in t.conversations && t.conversations[7].active == Some(0) && t.results == map[]
  {
    var t1 := PhotoOpensADraft();
    run := RunGoesOn(Run(Empty, [EMPTY], []), TO_FAILURE[0], EMPTY);
    t := ClaimStep(t1, 0, 0, 0, RECEIPT_LEASE);
    run := RunGoesOn(run, TO_FAILURE[1], t1);
  }

  /** The first lease runs out, and a second worker takes over. */
  lemma TakeoverStarts() returns (run: Run, t: Tables)
    ensures IsRun(run) && run.steps == TO_FAILURE[..3] && t == run.states[3]
    ensures t.drafts == map[0 := Touch(StartFromReceipt(0, 7, 0, 0).(date := Set(100, Default)), 0)]
    ensures t.receipts.Keys == {0} && t.receipts[0].owner == 7 && HoldsAttempt(t, 0, 1) && t.receipts[0].imageRemovedAt.None?
    ensures 7 in t.conversations && t.conversations[7].active == Some(0)
    ensures 0 in t.attempts && t.attempts[0] == 0 && t.results == map[]
  {
    var t2;
    run, t2 := FirstWorkerClaims();
    t := ClaimStep(t2, 0, 1, RECEIPT_LEASE, RECEIPT_LEASE);
    run := RunGoesOn(run, TO_FAILURE[2], t2);
  }

  lemma TakeoverFails() returns (run: Run, t: Tables)
    ensures IsRun(run) && run.steps == TO_FAILURE && t == run.states[4]
    ensures t.drafts.Keys == {0} && t.drafts[0].id == 0 && t.drafts[0].receiptId == Some(0) && t.drafts[0].owner == 7
    ensures t.drafts[0].state.Collecting? && t.drafts[0].confirmedAt.None?
    ensures 0 in t.receipts && Finished(t.receipts[0]) && t.receipts[0].imageRemovedAt.None?
    ensures 0 in t.attempts && t.attempts[0] == 0
  {
    var t3;
    run, t3 := TakeoverStarts();
    FailingOpensTheDraft(t3, t3.drafts[0]);
    t := FinishStep(t3, 0, 1, None, false, 0, FAILED_AT);
    run := RunGoesOn(run, TO_FAILURE[3], t3);
  }

  lemma CancelClosesTheDraft(t: Tables, d: Draft)
    requires t.drafts == map[0 := d] && d.id == 0 && d.owner == 7 && Open(d.state)
    ensures Next(t, WebCancel(7, 0, CANCELLED_AT)) == t.(drafts := map[0 := d.(state := Cancelled, modifiedAt := CANCELLED_AT)])
  {
  }

  lemma RetentionRemovesTheImage() returns (run: Run, t: Tables)
    ensures IsRun(run) && run.steps == TO_FAILURE + TO_REMOVAL && t == run.states[6]
    ensures IsRemoved(t, 0) && 0 !in t.images && !HoldsAttempt(t, 0, 0) && 0 in t.attempts && t.attempts[0] == 0
  {
    var t4;
    run, t4 := TakeoverFails();
    CancelClosesTheDraft(t4, t4.drafts[0]);
    var t5 := Next(t4, WebCancel(7, 0, CANCELLED_AT));
    run := RunGoesOn(run, TO_REMOVAL[0], t4);
    CancelledReceiptIsRemoved(t5, t5.drafts[0]);
    t := RemoveStep(t5, {0}, CANCELLED_AT, REMOVED_AT);
    run := RunGoesOn(run, TO_REMOVAL[1], t5);
  }

  /**
   A worker that lost its lease can put an image back after a takeover, a cancellation and the image's
   removal. With the program's own times it has stalled for thirty days in this run.
   */
  lemma AStaleStoreBringsAnImageBack() returns (run: Run)
    ensures IsRun(run) && run.steps == TO_FAILURE + TO_REMOVAL + [StoreImage(0, 0)]
    ensures IsStale(run.states[6], run.steps[6]) && IsRemoved(run.states[6], 0) && !CameBack(run.states[6], 0) && CameBack(run.states[7], 0)
  {
    var t6;
    run, t6 := RetentionRemovesTheImage();
    StoringBringsBack(t6, StoreImage(0, 0), 0);
    run := RunGoesOn(run, StoreImage(0, 0), t6);
  }
}
