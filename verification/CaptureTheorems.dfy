/** The capture protocol over whole runs. */
module CaptureTheorems {
  import opened Wrappers
  import opened CaptureDraft
  import opened Conversations
  import opened Receipts
  import opened Expenses
  import opened CaptureFlow
  import opened CaptureFlowProofs
  import opened CaptureSystem
  import opened CaptureInvariants
  import opened CaptureSteps
  import opened CapturePointers
  import opened CaptureRuns

  ghost predicate NoWebReadyBefore(run: Run, n: nat)
    requires IsRun(run) && n <= |run.steps|
  {
    && (forall i | 0 <= i < n :: !run.steps[i].WebReady?)
    && (run.origin.Deletion? ==> NoWebReadyBefore(run.origin.earlier, |run.origin.earlier.steps|))
  }

  const FIRST := Env(0, 100, None, {}, {}, 0, 0, 0)

  lemma AddOpensADraft(t: Tables, update: int, user: Id, env: Env)
    requires update !in t.ledger && user !in t.conversations && env.freshDraft !in t.drafts
    ensures var p := OpenManual(Idle(env.now), user, env);
      UpdateStep(t, update, user, Add, env)
        == t.(ledger := t.ledger[update := env.now], drafts := t.drafts[env.freshDraft := p.draft], conversations := t.conversations[user := p.conversation])
  {
  }

  // --- review is complete, and near ---

  lemma TurnKeepsComplete(t: Tables, user: Id, turn: Turn)
    requires AllComplete(t)
    requires turn.edited.Some? ==> Complete(turn.edited.value)
    requires turn.started.Some? ==> Complete(turn.started.value)
    ensures AllComplete(Write(t, user, turn))
  {
  }

  lemma ReplyKeepsComplete(t: Tables, user: Id, input: Input, env: Env)
    requires Core(t) && AllComplete(t) && Reply(t, user, input, env).Accepted?
    ensures var turn := Reply(t, user, input, env).value;
      (turn.edited.Some? ==> Complete(turn.edited.value)) && (turn.started.Some? ==> Complete(turn.started.value))
  {
    var c := Lock(t, user, env.now);
    var active := ActiveDraft(t, user, c);
    LockedIsReady(t, user, env.now);
    RespondKeepsComplete(c, active, input, user, env);
    RespondIsSound(c, active, input, user, env);
  }

  lemma UpdateKeepsComplete(t: Tables, update: int, user: Id, input: Input, env: Env)
    requires Core(t) && AllComplete(t)
    ensures AllComplete(UpdateStep(t, update, user, input, env))
  {
    var r := Reply(t, user, input, env);
    if r.Accepted? {
      ReplyKeepsComplete(t, user, input, env);
      TurnKeepsComplete(t, user, r.value);
    }
  }

  lemma FinishKeepsComplete(t: Tables, id: Id, attempt: Id, output: Option<Values>, chat: bool, resultId: Id, now: Instant)
    requires Core(t) && AllComplete(t)
    ensures AllComplete(FinishStep(t, id, attempt, output, chat, resultId, now))
  {
    if HoldsAttempt(t, id, attempt) {
      var owner := t.receipts[id].owner;
      LockedIsReady(t, owner, now);
      FinishShape(t, id, attempt, output, chat, resultId, now);
      var found := DraftOfReceipt(t, id);
      if found.Some? && Open(t.drafts[found.value].state) {
        DeliverIsSound(Lock(t, owner, now), t.drafts[found.value], ResultOf(t.receipts[id], attempt, output, resultId), chat, now);
      }
    }
  }

  lemma SameDraftsComplete(t: Tables, t': Tables)
    requires AllComplete(t) && t'.drafts == t.drafts
    ensures AllComplete(t')
  {
  }

  lemma FirstCommitDrafts(t: Tables, update: int, user: Id, draft: Id, env: Env, turn: Result<Turn>)
    requires turn == Reply(t, user, Press(draft, ConfirmDraft), env)
    ensures FirstCommitStep(t, update, user, draft, env).drafts in {t.drafts, UpdateStep(t, update, user, Press(draft, ConfirmDraft), env).drafts}
  {
  }

  lemma FirstCommitKeepsComplete(t: Tables, update: int, user: Id, draft: Id, env: Env)
    requires Core(t) && AllComplete(t)
    ensures AllComplete(Next(t, FirstCommit(update, user, draft, env)))
  {
    var input := Press(draft, ConfirmDraft);
    UpdateKeepsComplete(t, update, user, input, env);
    FirstCommitDrafts(t, update, user, draft, env, Reply(t, user, input, env));
    var t' := Next(t, FirstCommit(update, user, draft, env));
    if t'.drafts == t.drafts {
      SameDraftsComplete(t, t');
    } else {
      SameDraftsComplete(UpdateStep(t, update, user, input, env), t');
    }
  }

  lemma EditKeepsComplete(d: Draft, caller: Id, edit: DraftEdit, now: Instant)
    requires EditAll(d, caller, edit, now).Accepted? && Complete(d)
    ensures Complete(EditAll(d, caller, edit, now).value) && EditAll(d, caller, edit, now).value.source == d.source
  {
  }

  lemma OneDraftKeepsComplete(t: Tables, d: Draft)
    requires AllComplete(t) && (!d.source.WebManual? ==> Complete(d))
    ensures AllComplete(WithDraft(t, d))
  {
  }

  lemma WebEditKeepsComplete(t: Tables, user: Id, id: Id, edit: DraftEdit, now: Instant)
    requires AllComplete(t)
    ensures AllComplete(WebStep(t, user, id, d => EditAll(d, user, edit, now)))
  {
    var d := OwnedDraft(t, user, id);
    if d.Some? && EditAll(d.value, user, edit, now).Accepted? {
      var after := EditAll(d.value, user, edit, now).value;
      EditKeepsSource(d.value, user, edit, now);
      if !after.source.WebManual? {
        EditKeepsComplete(d.value, user, edit, now);
      }
      OneDraftKeepsComplete(t, after);
    }
  }

  lemma ConfirmKeepsComplete(t: Tables, user: Id, id: Id, env: Env)
    requires AllComplete(t)
    ensures AllComplete(ConfirmOutcome(t, user, id, env).1)
  {
    var d := OwnedDraft(t, user, id);
    if d.Some? && !d.value.state.Confirmed? && ConfirmOpen(d.value, user, env).Saves? {
      OneDraftKeepsComplete(t, ConfirmOpen(d.value, user, env).draft);
      SameDraftsComplete(WithDraft(t, ConfirmOpen(d.value, user, env).draft), ConfirmOutcome(t, user, id, env).1);
    }
  }

  lemma WebKeepsComplete(t: Tables, a: Step)
    requires AllComplete(t) && (a.WebStart? || a.WebEdit? || a.WebCancel? || a.WebConfirm?)
    ensures AllComplete(Next(t, a))
  {
    match a {
      case WebStart(user, env) => OneDraftKeepsComplete(t, Start(env.freshDraft, user, WebManual, env.now));
      case WebEdit(user, draft, edit, now) => WebEditKeepsComplete(t, user, draft, edit, now);
      case WebCancel(user, draft, now) =>
        var d := OwnedDraft(t, user, draft);
        if d.Some? && CaptureDraft.Cancel(d.value, user, now).Accepted? {
          OneDraftKeepsComplete(t, CaptureDraft.Cancel(d.value, user, now).value);
        }
      case WebConfirm(user, draft, env) => ConfirmKeepsComplete(t, user, draft, env);
    }
  }

  lemma EditKeepsSource(d: Draft, caller: Id, edit: DraftEdit, now: Instant)
    requires EditAll(d, caller, edit, now).Accepted?
    ensures EditAll(d, caller, edit, now).value.source == d.source
  {
  }

  lemma RestKeepsComplete(t: Tables, a: Step)
    requires AllComplete(t)
    requires a.SecondCommit? || a.OtherUpdate? || a.ClaimReceipt? || a.StoreImage? || a.ClaimNotices? || a.ExpireDrafts? || a.RemoveReceiptData? || a.PruneLedger? || a.SetExpenseDeleted? || a.Unlink?
    ensures AllComplete(Next(t, a))
  {
  }

  lemma StepKeepsComplete(t: Tables, a: Step)
    requires Core(t) && AllComplete(t) && Enabled(t, a) && !a.WebReady?
    ensures AllComplete(Next(t, a))
  {
    match a {
      case Update(update, user, input, env) => UpdateKeepsComplete(t, update, user, input, env);
      case FirstCommit(update, user, draft, env) => FirstCommitKeepsComplete(t, update, user, draft, env);
      case FinishReceipt(receipt, attempt, output, chat, resultId, now) => FinishKeepsComplete(t, receipt, attempt, output, chat, resultId, now);
      case WebStart(_, _) => WebKeepsComplete(t, a);
      case WebEdit(_, _, _, _) => WebKeepsComplete(t, a);
      case WebCancel(_, _, _) => WebKeepsComplete(t, a);
      case WebConfirm(_, _, _) => WebKeepsComplete(t, a);
      case _ => RestKeepsComplete(t, a);
    }
  }

  /** Without the web's ready action, every Telegram draft in review has an amount and a date. */
  lemma {:induction false} ReviewIsComplete(run: Run, n: nat)
    requires IsRun(run) && n <= |run.steps| && NoWebReadyBefore(run, n)
    ensures AllComplete(run.states[n])
  {
    if n > 0 {
      ReviewIsComplete(run, n - 1);
      CoreAlways(run, n - 1);
      assert Happens(run, n - 1);
      StepKeepsComplete(run.states[n - 1], run.steps[n - 1]);
    } else if run.origin.Deletion? {
      var earlier := run.origin.earlier;
      ReviewIsComplete(earlier, |earlier.steps|);
      DeletionKeepsComplete(earlier.states[|earlier.steps|], run.origin.user);
    }
  }

  lemma DeletionKeepsComplete(t: Tables, user: Id)
    requires AllComplete(t)
    ensures AllComplete(WithoutAccount(t, user))
  {
  }

  lemma OneDraftCompleteIff(t: Tables, d: Draft)
    requires AllComplete(t)
    ensures AllComplete(WithDraft(t, d)) <==> (d.source.WebManual? || Complete(d))
  {
    assert WithDraft(t, d).drafts[d.id] == d;
  }

  /** The ready action breaks this exactly on a caller's collecting Telegram draft without an amount. */
  lemma WebReadyKeepsCompleteIff(t: Tables, user: Id, id: Id, now: Instant)
    requires Core(t) && AllComplete(t)
    ensures AllComplete(Next(t, WebReady(user, id, now))) <==>
      !(id in t.drafts && t.drafts[id].owner == user && t.drafts[id].state.Collecting?
        && !t.drafts[id].source.WebManual? && t.drafts[id].amount.Unset?)
  {
    if id in t.drafts && MarkReady(t.drafts[id], user, now).Accepted? {
      ReadyDraft(t, user, id, now);
      OneDraftCompleteIff(t, MarkReady(t.drafts[id], user, now).value);
      assert DraftRowOk(t.drafts[id]);
    } else {
      ReadyRefused(t, user, id, now);
    }
  }

  lemma ReadyDraft(t: Tables, user: Id, id: Id, now: Instant)
    requires id in t.drafts && MarkReady(t.drafts[id], user, now).Accepted?
    ensures Next(t, WebReady(user, id, now)) == WithDraft(t, MarkReady(t.drafts[id], user, now).value)
  {
  }

  lemma ReadyRefused(t: Tables, user: Id, id: Id, now: Instant)
    requires id !in t.drafts || MarkReady(t.drafts[id], user, now).Rejected?
    ensures Next(t, WebReady(user, id, now)) == t
  {
  }

  const WEB := Env(0, 100, None, {}, {}, 1, 1, 0)

  /** Whatever is in review without an amount is refused by every confirmation, the bot's and the web's, and stays as it is. */
  lemma NoAmountNoConfirmation(t: Tables, user: Id, id: Id, env: Env)
    requires id in t.drafts && t.drafts[id].state.ReadyForReview? && t.drafts[id].amount.Unset?
    ensures ConfirmOutcome(t, user, id, env) == (if t.drafts[id].owner == user then Refused else Denied, t)
    ensures ConfirmOpen(t.drafts[id], user, env).NotConfirmable?
  {
  }

  /** Adding an expense in the chat and pressing ready on the web puts a draft in review that nobody can confirm. */
  lemma ReadyCanLeaveADeadEnd() returns (run: Run)
    ensures IsRun(run) && run.steps == [Update(1, 7, Add, FIRST), WebReady(7, 0, 0), WebConfirm(7, 0, WEB)]
    ensures 0 in run.states[2].drafts && run.states[2].drafts[0].state.ReadyForReview? && run.states[2].drafts[0].amount.Unset?
    ensures ConfirmOutcome(run.states[2], 7, 0, WEB) == (Refused, run.states[2]) && run.states[3] == run.states[2]
  {
    var t2;
    run, t2 := ReadyWithoutAmount();
    NoAmountNoConfirmation(t2, 7, 0, WEB);
    run := RunGoesOn(run, WebConfirm(7, 0, WEB), t2);
  }

  lemma ReadyWithoutAmount() returns (run: Run, t: Tables)
    ensures IsRun(run) && run.steps == [Update(1, 7, Add, FIRST), WebReady(7, 0, 0)] && t == run.states[2]
    ensures t.drafts.Keys == {0} && t.drafts[0].owner == 7 && t.drafts[0].state.ReadyForReview? && t.drafts[0].amount.Unset?
    ensures t.receipts == map[] && t.expenses == map[]
  {
    AddOpensADraft(EMPTY, 1, 7, FIRST);
    var t1 := UpdateStep(EMPTY, 1, 7, Add, FIRST);
    run := RunGoesOn(Run(Empty, [EMPTY], []), Update(1, 7, Add, FIRST), EMPTY);
    ReadyDraft(t1, 7, 0, 0);
    t := Next(t1, WebReady(7, 0, 0));
    run := RunGoesOn(run, WebReady(7, 0, 0), t1);
  }

  /** How many of the first `n` steps, or of those before an account was deleted, delivered a usable answer about draft `d`. */
  ghost function AnswerCount(run: Run, d: Id, n: nat): nat
    requires IsRun(run) && n <= |run.steps|
  {
    if n == 0 then
      if run.origin.Deletion? && d in run.states[0].drafts then AnswerCount(run.origin.earlier, d, |run.origin.earlier.steps|) else 0
    else AnswerCount(run, d, n - 1) + if Answers(run.states[n - 1], run.steps[n - 1], d) then 1 else 0
  }

  lemma RankOfNewDraft(t: Tables, d: Id)
    requires d in t.drafts
    ensures RankOf(t, t.drafts[d]) <= 3
  {
  }

  /** In one step a draft's rank does not rise, and falls when the step answers the question about it. */
  lemma StepLowersRank(t: Tables, a: Step, d: Id)
    requires Core(t) && Enabled(t, a) && d in t.drafts
    ensures d in Next(t, a).drafts
    ensures RankOf(Next(t, a), Next(t, a).drafts[d]) + (if Answers(t, a, d) then 1 else 0) <= RankOf(t, t.drafts[d])
  {
    if Answers(t, a, d) {
      AnswerLowers(t, a, d);
    } else {
      StepIsSound(t, a);
      StepMoves(t, a);
      RankMoves(t, Next(t, a), d);
    }
  }

  lemma RankMoves(t: Tables, t': Tables, d: Id)
    requires d in t.drafts && d in t'.drafts && Evolves(t.drafts[d], t'.drafts[d]) && Moves(t, t', d) && t.drafts[d].id == d
    ensures RankOf(t', t'.drafts[d]) <= RankOf(t, t.drafts[d])
  {
  }

  lemma CountAndRank(t: Tables, a: Step, d: Id, count: nat)
    requires Core(t) && Enabled(t, a)
    requires if d in t.drafts then count + RankOf(t, t.drafts[d]) <= 3 else count == 0
    ensures d in t.drafts ==> d in Next(t, a).drafts
    ensures d in Next(t, a).drafts ==> count + (if Answers(t, a, d) then 1 else 0) + RankOf(Next(t, a), Next(t, a).drafts[d]) <= 3
  {
    if d in t.drafts {
      StepLowersRank(t, a, d);
    } else if d in Next(t, a).drafts {
      RankOfNewDraft(Next(t, a), d);
    }
  }

  lemma DeletionKeepsRank(t: Tables, user: Id, d: Id)
    requires d in WithoutAccount(t, user).drafts
    ensures d in t.drafts && RankOf(WithoutAccount(t, user), WithoutAccount(t, user).drafts[d]) == RankOf(t, t.drafts[d])
  {
  }

  lemma {:induction false} AnswersPlusRank(run: Run, d: Id, n: nat)
    requires IsRun(run) && n <= |run.steps|
    ensures d in run.states[n].drafts ==> AnswerCount(run, d, n) + RankOf(run.states[n], run.states[n].drafts[d]) <= 3
    ensures d !in run.states[n].drafts ==> AnswerCount(run, d, n) == 0
  {
    if n > 0 {
      AnswersPlusRank(run, d, n - 1);
      CoreAlways(run, n - 1);
      assert Happens(run, n - 1);
      CountAndRank(run.states[n - 1], run.steps[n - 1], d, AnswerCount(run, d, n - 1));
    } else if d in run.states[0].drafts {
      RankOfNewDraft(run.states[0], d);
      if run.origin.Deletion? {
        var earlier := run.origin.earlier;
        AnswersPlusRank(earlier, d, |earlier.steps|);
        CoreAlways(earlier, |earlier.steps|);
        DeletionKeepsRank(earlier.states[|earlier.steps|], run.origin.user, d);
      }
    }
  }

  lemma NothingLeftToAsk(t: Tables, d: Id)
    requires d in t.drafts && PointsAt(t, t.drafts[d].owner, d) && RankOf(t, t.drafts[d]) == 0 && t.drafts[d].id == d
    ensures !t.drafts[d].state.Collecting? && !t.drafts[d].state.AwaitingRecognition?
  {
  }

  /** At most three answers bring a draft to review: the third leaves nothing to ask. */
  lemma ThreeAnswersReachReview(run: Run, d: Id, n: nat)
    requires IsRun(run) && n <= |run.steps|
    ensures AnswerCount(run, d, n) <= 3
    ensures AnswerCount(run, d, n) == 3 && d in run.states[n].drafts && PointsAt(run.states[n], run.states[n].drafts[d].owner, d) ==>
      !run.states[n].drafts[d].state.Collecting? && !run.states[n].drafts[d].state.AwaitingRecognition?
  {
    AnswersPlusRank(run, d, n);
    var t := run.states[n];
    if AnswerCount(run, d, n) == 3 && d in t.drafts && PointsAt(t, t.drafts[d].owner, d) {
      CoreAlways(run, n);
      NothingLeftToAsk(t, d);
    }
  }

  // --- what holds between any two moments ---

  /** A confirmed, cancelled or expired draft never changes again; it may only forget a deleted result. */
  lemma ClosedDraftsAreFrozen(m: Moment, m': Moment, d: Id)
    requires IsMoment(m) && d in At(m).drafts && !Open(At(m).drafts[d].state) && Follows(m, m', At(m).drafts[d].owner)
    ensures d in At(m').drafts
    ensures At(m').drafts[d] == At(m).drafts[d].(resultId := At(m').drafts[d].resultId)
  {
    MovesOn(m, m', At(m).drafts[d].owner);
    assert Evolves(At(m).drafts[d], At(m').drafts[d]);
  }

  // --- leases ---

  /** The receipt is finished, or leased at least until `x`. */
  predicate LeasedUntil(t: Tables, r: Id, x: Instant) {
    r in t.receipts && (Finished(t.receipts[r]) || (t.receipts[r].state.Processing? && t.receipts[r].leaseExpiresAt.Some? && t.receipts[r].leaseExpiresAt.value >= x))
  }

  /** The step taken starts an attempt on receipt `r`. */
  ghost predicate Claims(m: Moment, r: Id) {
    && IsTaken(m) && Taken(m).ClaimReceipt? && Taken(m).receipt == r && Taken(m).lease > 0
    && r in At(m).receipts && IsClaimable(At(m).receipts[r], Taken(m).now)
  }

  /** Whatever a turn writes, it adds a receipt at most. */
  lemma TurnKeepsReceipts(t: Tables, user: Id, input: Input, env: Env, turn: Turn, r: Id)
    requires Core(t) && FreshIds(t, env) && r in t.receipts && Reply(t, user, input, env) == Accepted(turn)
    ensures turn.received.Some? ==> turn.received.value.id != r
  {
    var c := Lock(t, user, env.now);
    LockedIsReady(t, user, env.now);
    RespondIsSound(c, ActiveDraft(t, user, c), input, user, env);
  }

  lemma UpdateKeepsReceipts(t: Tables, update: int, user: Id, input: Input, env: Env, turn: Result<Turn>, r: Id)
    requires Core(t) && FreshIds(t, env) && r in t.receipts && turn == Reply(t, user, input, env)
    ensures var t' := UpdateStep(t, update, user, input, env); r in t'.receipts && t'.receipts[r] == t.receipts[r]
  {
    if turn.Accepted? {
      TurnKeepsReceipts(t, user, input, env, turn.value, r);
    }
  }

  lemma FirstCommitKeepsReceipts(t: Tables, update: int, user: Id, draft: Id, env: Env, turn: Result<Turn>, r: Id)
    requires Core(t) && FreshIds(t, env) && r in t.receipts && turn == Reply(t, user, Press(draft, ConfirmDraft), env)
    ensures var t' := FirstCommitStep(t, update, user, draft, env); r in t'.receipts && t'.receipts[r] == t.receipts[r]
  {
    if turn.Accepted? {
      TurnKeepsReceipts(t, user, Press(draft, ConfirmDraft), env, turn.value, r);
    }
  }

  lemma FinishKeepsLease(t: Tables, id: Id, attempt: Id, output: Option<Values>, chat: bool, resultId: Id, now: Instant, r: Id, x: Instant)
    requires LeasedUntil(t, r, x)
    ensures LeasedUntil(FinishStep(t, id, attempt, output, chat, resultId, now), r, x)
  {
    if HoldsAttempt(t, id, attempt) {
      var closed := CloseAttempt(t, id, attempt, output, resultId, now);
      assert FinishStep(t, id, attempt, output, chat, resultId, now).receipts in {t.receipts, closed.receipts};
    }
  }

  lemma OthersKeepLease(t: Tables, a: Step, r: Id, x: Instant)
    requires LeasedUntil(t, r, x) && !a.Update? && !a.FirstCommit? && !a.FinishReceipt?
    ensures LeasedUntil(Next(t, a), r, x)
  {
  }

  /** No step shortens a lease; a claim that takes over an expired one sets a later expiry. */
  lemma StepKeepsLease(t: Tables, a: Step, r: Id, x: Instant)
    requires Core(t) && Enabled(t, a) && LeasedUntil(t, r, x)
    ensures LeasedUntil(Next(t, a), r, x)
  {
    match a {
      case Update(update, user, input, env) => UpdateKeepsReceipts(t, update, user, input, env, Reply(t, user, input, env), r);
      case FirstCommit(update, user, draft, env) => FirstCommitKeepsReceipts(t, update, user, draft, env, Reply(t, user, Press(draft, ConfirmDraft), env), r);
      case FinishReceipt(receipt, attempt, output, chat, resultId, now) => FinishKeepsLease(t, receipt, attempt, output, chat, resultId, now, r, x);
      case _ => OthersKeepLease(t, a, r, x);
    }
  }

  lemma {:induction false} LeaseLasts(run: Run, i: nat, j: nat, r: Id, x: Instant)
    requires IsRun(run) && i <= j <= |run.steps| && LeasedUntil(run.states[i], r, x)
    ensures LeasedUntil(run.states[j], r, x)
  {
    if i < j {
      LeaseLasts(run, i, j - 1, r, x);
      CoreAlways(run, j - 1);
      assert Happens(run, j - 1);
      StepKeepsLease(run.states[j - 1], run.steps[j - 1], r, x);
    }
  }

  lemma {:induction false} LeaseLastsAcross(m: Moment, m': Moment, r: Id, x: Instant, u: Id)
    requires Follows(m, m', u) && LeasedUntil(At(m), r, x) && At(m).receipts[r].owner == u
    ensures LeasedUntil(At(m'), r, x)
    decreases m'.run
  {
    if m.run == m'.run {
      LeaseLasts(m.run, m.n, m'.n, r, x);
    } else {
      var end := End(m'.run.origin.earlier);
      LeaseLastsAcross(m, end, r, x, u);
      MovesOn(m, end, u);
      assert ReceiptEvolves(At(m).receipts[r], At(end).receipts[r]);
      LeaseLasts(m'.run, 0, m'.n, r, x);
    }
  }

  /** Two attempts on one receipt start at least a whole lease apart, whatever the clocks of the steps between. */
  lemma LeasesExclude(m: Moment, m': Moment, r: Id)
    requires Claims(m, r) && Claims(m', r) && Follows(After(m), m', At(m).receipts[r].owner)
    ensures Taken(m').now >= Taken(m).now + Taken(m).lease
  {
    var x := Taken(m).now + Taken(m).lease;
    assert Happens(m.run, m.n);
    assert LeasedUntil(At(After(m)), r, x);
    LeaseLastsAcross(After(m), m', r, x, At(m).receipts[r].owner);
  }

  // --- finished receipts ---

  /** The step taken finishes receipt `r`: the attempt it carries is the current one. */
  ghost predicate Finishes(m: Moment, r: Id) {
    IsTaken(m) && Taken(m).FinishReceipt? && Taken(m).receipt == r && HoldsAttempt(At(m), r, Taken(m).attempt)
  }

  lemma FinishingFinishes(m: Moment, r: Id)
    requires Finishes(m, r)
    ensures r in At(After(m)).receipts && Finished(At(After(m)).receipts[r])
    ensures At(After(m)).receipts[r].owner == At(m).receipts[r].owner
  {
    CoreAlways(m.run, m.n);
    assert Happens(m.run, m.n);
    FinishCloses(At(m), Taken(m), r);
  }

  lemma FinishCloses(t: Tables, a: Step, r: Id)
    requires Core(t) && a.FinishReceipt? && a.receipt == r && HoldsAttempt(t, r, a.attempt)
    ensures var t' := FinishStep(t, r, a.attempt, a.output, a.chat, a.resultId, a.now);
      r in t'.receipts && Finished(t'.receipts[r]) && t'.receipts[r].owner == t.receipts[r].owner
  {
    var owner := t.receipts[r].owner;
    var result := ResultOf(t.receipts[r], a.attempt, a.output, a.resultId);
    var found := DraftOfReceipt(t, r);
    var closed := CloseAttempt(t, r, a.attempt, a.output, a.resultId, a.now);
    if found.Some? && Open(t.drafts[found.value].state) {
      Delivers(t, a.now, t.drafts[found.value], r, result, a.chat);
      DeliveredCloses(t, closed, owner, Deliver(Lock(t, owner, a.now), t.drafts[found.value], result, a.chat, a.now));
    }
  }

  lemma DeliveredCloses(t: Tables, closed: Tables, owner: Id, p: Result<Pair>)
    requires p.Accepted?
    ensures DeliveredTo(t, closed, owner, p).receipts == closed.receipts
  {
  }

  /** With any number of workers and takeovers, a finished receipt is never finished again. */
  lemma FinishedOnce(m: Moment, m': Moment, r: Id)
    requires Finishes(m, r) && IsTaken(m') && Follows(After(m), m', At(m).receipts[r].owner)
    ensures !Finishes(m', r)
  {
    FinishingFinishes(m, r);
    MovesOn(After(m), m', At(m).receipts[r].owner);
    assert ReceiptEvolves(At(After(m)).receipts[r], At(m').receipts[r]);
  }

  /** A stale finish, an attempt that is no longer current, changes nothing at all. */
  lemma StaleFinishChangesNothing(m: Moment)
    requires IsTaken(m) && Taken(m).FinishReceipt?
    ensures !Finishes(m, Taken(m).receipt) <==> At(After(m)) == At(m)
  {
    assert Happens(m.run, m.n);
    if Finishes(m, Taken(m).receipt) {
      FinishingFinishes(m, Taken(m).receipt);
    }
  }

  /** Over a whole run a receipt has at most one recognition result, even after retention. */
  lemma OneResultPerReceipt(m: Moment, m': Moment, a: Id, b: Id)
    requires IsMoment(m) && IsMoment(m') && a in At(m).results && b in At(m').results
    requires At(m).results[a].receiptId == At(m').results[b].receiptId && Follows(m, m', At(m).results[a].owner)
    ensures a == b && At(m).results[a] == At(m').results[b]
  {
    CoreAlways(m.run, m.n);
    MovesOn(m, m', At(m).results[a].owner);
  }

  /** Once its image is removed, no attempt starts or ends on a receipt and its draft stays closed. */
  lemma RemovedReceiptsRest(m: Moment, m': Moment, r: Id)
    requires IsMoment(m) && r in At(m).receipts && At(m).receipts[r].imageRemovedAt.Some? && Follows(m, m', At(m).receipts[r].owner)
    ensures r in At(m').receipts
    ensures At(m').receipts[r].attempt == At(m).receipts[r].attempt && At(m').receipts[r].state == At(m).receipts[r].state
    ensures forall d :: HasDraft(At(m'), r, d) ==> !Open(At(m').drafts[d].state)
    ensures !Claims(m', r) && !Finishes(m', r)
  {
    MovesOn(m, m', At(m).receipts[r].owner);
    assert ReceiptEvolves(At(m).receipts[r], At(m').receipts[r]);
    CoreAlways(m'.run, m'.n);
  }

  /** A receipt is claimed for the "taking longer" message at most once. */
  lemma NoticedOnce(m: Moment, m': Moment, r: Id)
    requires IsTaken(m) && Taken(m).ClaimNotices? && r in Taken(m).batch && Overdue(At(m), r, Taken(m).before)
    requires IsTaken(m') && Taken(m').ClaimNotices? && Follows(After(m), m', At(m).receipts[r].owner)
    ensures !Overdue(At(m'), r, Taken(m').before)
  {
    assert Happens(m.run, m.n);
    NoticedReceipt(At(m), Taken(m), r);
    MovesOn(After(m), m', At(m).receipts[r].owner);
    assert ReceiptEvolves(At(After(m)).receipts[r], At(m').receipts[r]);
  }

  lemma NoticedReceipt(t: Tables, a: Step, r: Id)
    requires a.ClaimNotices? && r in a.batch && Overdue(t, r, a.before)
    ensures r in Next(t, a).receipts && Next(t, a).receipts[r] == t.receipts[r].(noticeSentAt := Some(a.now))
  {
  }

  // --- exactly one expense ---

  function UpdateId(a: Step): Option<int> {
    match a
    case Update(update, _, _, _) => Some(update)
    case FirstCommit(update, _, _, _) => Some(update)
    case OtherUpdate(update, _) => Some(update)
    case _ => None
  }

  /** The step taken begins the work of an update: it leaves a trace. */
  ghost predicate TakesEffect(m: Moment, update: int) {
    IsTaken(m) && UpdateId(Taken(m)) == Some(update) && At(After(m)) != At(m)
  }

  /** The step taken is a clean-up that forgets the update. */
  ghost predicate Prunes(m: Moment, update: int) {
    IsTaken(m) && Taken(m).PruneLedger? && update in At(m).ledger && update !in At(After(m)).ledger
  }

  lemma EffectIsRecorded(m: Moment, update: int)
    requires TakesEffect(m, update)
    ensures update !in At(m).ledger && update in At(After(m)).ledger
  {
    assert Happens(m.run, m.n);
  }

  lemma OnlyPruningForgets(t: Tables, a: Step, update: int)
    requires update in t.ledger && !a.PruneLedger?
    ensures update in Next(t, a).ledger
  {
    match a {
      case FinishReceipt(receipt, attempt, output, chat, resultId, now) => FinishLeavesAlone(t, receipt, attempt, output, chat, resultId, now);
      case Update(u, user, input, env) => UpdateLedger(t, u, user, input, env, Reply(t, user, input, env));
      case FirstCommit(u, user, draft, env) => FirstCommitLedger(t, u, user, draft, env, Reply(t, user, Press(draft, ConfirmDraft), env));
      case WebConfirm(user, draft, env) => ConfirmLedger(t, user, draft, env);
      case _ =>
    }
  }

  lemma FirstCommitLedger(t: Tables, update: int, user: Id, draft: Id, env: Env, turn: Result<Turn>)
    requires turn == Reply(t, user, Press(draft, ConfirmDraft), env)
    ensures FirstCommitStep(t, update, user, draft, env).ledger in {t.ledger, t.ledger[update := env.now]}
  {
  }

  lemma ConfirmLedger(t: Tables, user: Id, id: Id, env: Env)
    ensures ConfirmOutcome(t, user, id, env).1.ledger == t.ledger
  {
  }

  lemma UpdateLedger(t: Tables, update: int, user: Id, input: Input, env: Env, turn: Result<Turn>)
    requires turn == Reply(t, user, input, env)
    ensures UpdateStep(t, update, user, input, env).ledger in {t.ledger, t.ledger[update := env.now]}
  {
  }

  /** A step taken at or after `m` and before `m'`. */
  ghost predicate Between(m: Moment, x: Moment, m': Moment) {
    IsTaken(x) && UpTo(m, x) && UpTo(After(x), m')
  }

  lemma LongerBetween(m: Moment, end: Moment, m': Moment)
    requires IsMoment(end) && IsMoment(m')
    requires if m'.run == end.run then end.n <= m'.n else m'.run.origin.Deletion? && end == End(m'.run.origin.earlier)
    ensures forall x | Between(m, x, end) :: Between(m, x, m')
  {
    forall x | Between(m, x, end) ensures Between(m, x, m') {
      NotDeeper(After(x), end);
    }
  }

  lemma {:induction false} LedgerRemembers(m: Moment, m': Moment, update: int)
    requires IsMoment(m) && IsMoment(m') && UpTo(m, m') && update in At(m).ledger
    requires forall x | Between(m, x, m') :: !Prunes(x, update)
    ensures update in At(m').ledger
    decreases m'.run, m'.n
  {
    if m == m' {
    } else if m'.n == 0 {
      var end := End(m'.run.origin.earlier);
      LongerBetween(m, end, m');
      LedgerRemembers(m, end, update);
    } else {
      var x := Moment(m'.run, m'.n - 1);
      LongerBetween(m, x, m');
      LedgerRemembers(m, x, update);
      assert Happens(x.run, x.n) && Between(m, x, m');
      if !Taken(x).PruneLedger? {
        OnlyPruningForgets(At(x), Taken(x), update);
      }
    }
  }

  /** An update id takes effect at most once, redeliveries, crashes and account deletions included, until retention prunes it. */
  lemma UpdatesTakeEffectOnce(m: Moment, m': Moment, update: int)
    requires TakesEffect(m, update) && TakesEffect(m', update) && UpTo(After(m), m')
    ensures exists x :: Between(After(m), x, m') && Prunes(x, update)
  {
    EffectIsRecorded(m, update);
    EffectIsRecorded(m', update);
    if forall x | Between(After(m), x, m') :: !Prunes(x, update) {
      LedgerRemembers(After(m), m', update);
      assert false;
    }
  }

  /** A draft is confirmed exactly when its one expense exists; owner, receipt and source agree. */
  lemma ConfirmedIffSaved(run: Run, n: nat, d: Id)
    requires IsRun(run) && n <= |run.steps| && d in run.states[n].drafts
    ensures var t := run.states[n];
      && (t.drafts[d].state.Confirmed? <==> exists e :: e in t.expenses && t.expenses[e].draftId == d)
      && (forall e | e in t.expenses && t.expenses[e].draftId == d :: Linked(t.drafts[d], t.expenses[e]))
      && (forall a, b | a in t.expenses && b in t.expenses && t.expenses[a].draftId == d && t.expenses[b].draftId == d :: a == b)
  {
    CoreAlways(run, n);
    var t := run.states[n];
    if t.drafts[d].state.Confirmed? {
      assert t.drafts[d].expenseId.value in t.expenses;
    }
  }

  lemma OthersMakeNoExpense(t: Tables, a: Step)
    requires !a.Update? && !a.FirstCommit? && !a.WebConfirm?
    ensures Next(t, a).expenses.Keys == t.expenses.Keys
  {
    if a.FinishReceipt? {
      FinishLeavesAlone(t, a.receipt, a.attempt, a.output, a.chat, a.resultId, a.now);
    }
  }

  lemma NewExpenseIsSaved(t: Tables, t': Tables, e: Id)
    requires SoundExpenses(t, t') && SoundDrafts(t, t') && e in t'.expenses && e !in t.expenses
    ensures var d := t'.expenses[e].draftId;
      d in t.drafts && d in t'.drafts && OnlyConfirmed(t.drafts[d], t'.drafts[d]) && SavedAs(t'.drafts[d], t'.expenses[e])
  {
  }

  /** A new expense is saved from a draft in review, active, with every value the draft shows; nothing else makes one. */
  lemma SavedExpenseIsTheDraft(run: Run, i: nat, e: Id)
    requires IsRun(run) && i < |run.steps|
    requires e !in run.states[i].expenses && e in run.states[i + 1].expenses
    ensures var t, t' := run.states[i], run.states[i + 1]; var d := t'.expenses[e].draftId;
      && d in t.drafts && d in t'.drafts
      && OnlyConfirmed(t.drafts[d], t'.drafts[d])
      && SavedAs(t'.drafts[d], t'.expenses[e])
      && (run.steps[i].Update? || run.steps[i].FirstCommit? || run.steps[i].WebConfirm?)
  {
    var t, t', a := run.states[i], run.states[i + 1], run.steps[i];
    EveryStepIsSound(run, i);
    NewExpenseIsSaved(t, t', e);
    assert Happens(run, i);
    if !a.Update? && !a.FirstCommit? && !a.WebConfirm? {
      OthersMakeNoExpense(t, a);
    }
  }

  /** At no two moments does one draft have two different expenses. */
  lemma OneExpensePerDraft(m: Moment, m': Moment, a: Id, b: Id)
    requires IsMoment(m) && IsMoment(m') && a in At(m).expenses && b in At(m').expenses
    requires At(m).expenses[a].draftId == At(m').expenses[b].draftId && Follows(m, m', At(m).expenses[a].owner)
    ensures a == b
  {
    MovesOn(m, m', At(m).expenses[a].owner);
    CoreAlways(m'.run, m'.n);
    ConfirmedIffSaved(m'.run, m'.n, At(m').expenses[b].draftId);
  }

  /**
   Once a draft has an expense, however it was confirmed (in the chat, by an update whose second commit
   came late or never, or on the web), confirming it at that or any later time writes nothing and
   returns that expense; only once the expense is deleted is it refused.
   */
  lemma ConfirmingAgainReturnsTheSameExpense(m: Moment, m': Moment, e: Id, again: Env)
    requires IsMoment(m) && e in At(m).expenses && Follows(m, m', At(m).expenses[e].owner)
    ensures e in At(m').expenses
    ensures var first, now := At(m).expenses[e], At(m').expenses[e];
      && SameOrigin(first, now)
      && ConfirmOutcome(At(m'), first.owner, first.draftId, again) == (if IsActive(now) then Returned(now) else Refused, At(m'))
  {
    MovesOn(m, m', At(m).expenses[e].owner);
    CoreAlways(m.run, m.n);
    CoreAlways(m'.run, m'.n);
    SavedReply(At(m'), e, again);
  }

  lemma SavedReply(t: Tables, e: Id, again: Env)
    requires Core(t) && e in t.expenses
    ensures t.expenses[e].id == e
    ensures ConfirmOutcome(t, t.expenses[e].owner, t.expenses[e].draftId, again)
         == (if IsActive(t.expenses[e]) then Returned(t.expenses[e]) else Refused, t)
  {
    assert Linked(t.drafts[t.expenses[e].draftId], t.expenses[e]);
    ConfirmedReply(t, t.expenses[e].owner, t.expenses[e].draftId, again);
  }

  /** What a confirmation returned once is what every later one returns, or refuses once it is deleted. */
  lemma LaterConfirmationsReturnTheFirst(m: Moment, m': Moment, user: Id, d: Id, first: Env, e: Expense, again: Env)
    requires IsTaken(m) && Taken(m) == WebConfirm(user, d, first) && Follows(After(m), m', user)
    requires ConfirmOutcome(At(m), user, d, first).0 == Returned(e)
    ensures e.id in At(m').expenses
    ensures ConfirmOutcome(At(m'), user, d, again)
      == (if IsActive(At(m').expenses[e.id]) then Returned(At(m').expenses[e.id]) else Refused, At(m'))
  {
    ReturnedIsStored(m, user, d, first, e);
    SavedIsReturnedLater(After(m), m', e.id, user, d, again);
  }

  lemma ReturnedIsStored(m: Moment, user: Id, d: Id, first: Env, e: Expense)
    requires IsTaken(m) && Taken(m) == WebConfirm(user, d, first) && ConfirmOutcome(At(m), user, d, first).0 == Returned(e)
    ensures var t := At(After(m)); e.id in t.expenses && t.expenses[e.id].owner == user && t.expenses[e.id].draftId == d
  {
    CoreAlways(m.run, m.n + 1);
    assert Happens(m.run, m.n);
    ReturnedIsSaved(At(m), At(After(m)), Taken(m), user, d, first, e);
  }

  lemma SavedIsReturnedLater(m: Moment, m': Moment, e: Id, user: Id, d: Id, again: Env)
    requires Follows(m, m', user) && e in At(m).expenses && At(m).expenses[e].owner == user && At(m).expenses[e].draftId == d
    ensures e in At(m').expenses
    ensures ConfirmOutcome(At(m'), user, d, again) == (if IsActive(At(m').expenses[e]) then Returned(At(m').expenses[e]) else Refused, At(m'))
  {
    ConfirmingAgainReturnsTheSameExpense(m, m', e, again);
  }

  lemma ReturnedIsSaved(t: Tables, t': Tables, a: Step, user: Id, d: Id, env: Env, e: Expense)
    requires a == WebConfirm(user, d, env) && t' == Next(t, a) && ConfirmOutcome(t, user, d, env).0 == Returned(e)
    requires DraftsOk(t') && ExpensesOk(t')
    ensures e.id in t'.expenses && t'.expenses[e.id].owner == user && t'.expenses[e.id].draftId == d
  {
    assert d in t'.drafts && t'.drafts[d].id == d;
    if t.drafts[d].state.Confirmed? {
      assert Linked(t'.drafts[d], t'.expenses[t'.drafts[d].expenseId.value]);
    }
  }

  lemma ConfirmedReply(t: Tables, user: Id, d: Id, env: Env)
    requires Core(t) && d in t.drafts && t.drafts[d].owner == user && t.drafts[d].state.Confirmed?
    ensures t.drafts[d].expenseId.Some? && t.drafts[d].expenseId.value in t.expenses
    ensures ConfirmOutcome(t, user, d, env)
      == (var e := t.expenses[t.drafts[d].expenseId.value]; (if IsActive(e) then Returned(e) else Refused, t))
  {
    assert Linked(t.drafts[d], t.expenses[t.drafts[d].expenseId.value]);
  }

  /** After a crash between the commits the next update puts the conversation right. */
  lemma NextUpdateHealsTheConversation(run: Run, i: nat)
    requires IsRun(run) && i < |run.steps| && run.steps[i].Update? && run.states[i + 1] != run.states[i]
    ensures var t := run.states[i + 1]; var user := run.steps[i].user;
      && user in t.conversations
      && (t.conversations[user].active.Some? ==>
            t.conversations[user].active.value in t.drafts && Open(t.drafts[t.conversations[user].active.value].state))
  {
    CoreAlways(run, i);
    assert Happens(run, i);
    var t, a := run.states[i], run.steps[i];
    var c := Lock(t, a.user, a.env.now);
    LockedIsReady(t, a.user, a.env.now);
    RespondIsSound(c, ActiveDraft(t, a.user, c), a.input, a.user, a.env);
  }
}
