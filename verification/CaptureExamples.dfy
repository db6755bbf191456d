/**
 Runs that leave a user with two open drafts. In one the user unlinks with a draft open. In the other
 nobody unlinks: the user confirms a draft; before the bot clears the conversation, which the first
 commit has released, the user's next /add opens a draft; then the conversation is cleared, and one
 more /add opens another.
 */
module CaptureExamples {
  import opened Wrappers
  import opened Amounts
  import opened CaptureDraft
  import opened Conversations
  import opened Expenses
  import opened CaptureFlow
  import opened CaptureSystem
  import opened CaptureRuns
  import opened CaptureTracking

  const FOOD := "food"

  /** The environment of an update, with `id` as the fresh draft and expense id. */
  function EnvFor(id: Id): Env {
    Env(0, 100, None, {FOOD}, {FOOD}, id, 0, id)
  }

  const FIVE_EUROS := Text(Typed(Some(TypedAmount(Decimal(5, 0), Some(EUR))), None, None, None))

  const STEPS: seq<Step> := [
    Update(1, 7, Add, EnvFor(0)), Update(2, 7, FIVE_EUROS, EnvFor(1)), Update(3, 7, Press(0, Skip), EnvFor(1)),
    Update(4, 7, Press(0, PickCategory(FOOD)), EnvFor(1)), FirstCommit(5, 7, 0, EnvFor(1)),
    Update(6, 7, Add, EnvFor(2)), SecondCommit(5, 0), Update(7, 7, Add, EnvFor(3))]

  /** The only user has one draft, which is the conversation's. */
  predicate Alone(t: Tables, c: Conversation, d: Draft, updates: set<int>) {
    && t.drafts == map[0 := d] && t.conversations == map[7 := c] && t.receipts == map[] && t.expenses == map[]
    && t.ledger.Keys == updates && d.id == 0 && d.owner == 7 && d.source.TelegramManual? && c.active == Some(0)
  }

  lemma Answered(t: Tables, update: int, input: Input, env: Env, c: Conversation, d: Draft, p: Pair, updates: set<int>)
    requires Alone(t, c, d, updates) && Open(d.state) && update !in updates
    requires Respond(c, Some(d), input, 7, env) == Edits(Accepted(p))
    requires p.draft.id == 0 && p.draft.owner == 7 && p.draft.source == d.source && p.conversation.active == Some(0)
    ensures Alone(UpdateStep(t, update, 7, input, env), p.conversation, p.draft, updates + {update})
  {
    assert ActiveDraft(t, 7, c) == Some(d);
  }

  function NewDraft(id: Id): Draft {
    Touch(Start(id, 7, TelegramManual, 0).(date := Set(100, Default)), 0)
  }

  function WithFive(): Draft {
    Touch(NewDraft(0).(amount := Set(Money(500, EUR), User)), 0)
  }

  function InReview(): Draft {
    Touch(WithFive().(category := Set(FOOD, User)), 0).(state := ReadyForReview)
  }

  lemma AddingOpens(t: Tables, update: int, env: Env, draft: Id)
    requires update !in t.ledger && env == EnvFor(draft) && draft !in t.drafts
    requires 7 in t.conversations ==> ActiveDraft(t, 7, t.conversations[7]).None?
    ensures UpdateStep(t, update, 7, Add, env) == t.(ledger := t.ledger[update := 0],
      drafts := t.drafts[draft := NewDraft(draft)], conversations := t.conversations[7 := Idle(0).WithDraft(draft, Awaiting.Amount, false, 0)])
  {
  }

  lemma FiveEurosAreFive()
    ensures ToMoney(Decimal(5, 0), EUR) == Accepted(Money(500, EUR))
  {
    assert Pow10(0) == 1 && Pow10(1) == 10 && Pow10(2) == 100;
  }

  lemma FirstDraft() returns (run: Run, t: Tables, c: Conversation)
    ensures IsRun(run) && run.steps == STEPS[..1] && t == run.states[1] && t.pending == map[]
    ensures Alone(t, c, NewDraft(0), {1}) && c.awaiting.Amount? && c.pending.None?
  {
    AddingOpens(EMPTY, 1, EnvFor(0), 0);
    run := TakesStep(Run(Empty, [EMPTY], []), STEPS, 0, EMPTY);
    t := UpdateStep(EMPTY, 1, 7, Add, EnvFor(0));
    c := t.conversations[7];
  }

  lemma TypingFive(c: Conversation) returns (p: Pair)
    requires c.awaiting.Amount? && c.pending.None? && c.active == Some(0)
    ensures Respond(c, Some(NewDraft(0)), FIVE_EUROS, 7, EnvFor(1)) == Edits(Accepted(p)) && p.draft == WithFive()
    ensures p.conversation.active == Some(0) && p.conversation.awaiting.Merchant? && p.conversation.pending.None?
  {
    FiveEurosAreFive();
    p := OnText(c, NewDraft(0), FIVE_EUROS.typed, EnvFor(1)).value;
  }

  lemma Skipping(c: Conversation) returns (p: Pair)
    requires c.awaiting.Merchant? && c.pending.None? && c.active == Some(0)
    ensures Respond(c, Some(WithFive()), Press(0, Skip), 7, EnvFor(1)) == Edits(Accepted(p)) && p.draft == WithFive()
    ensures p.conversation.active == Some(0) && p.conversation.awaiting.Category? && p.conversation.pending.None?
  {
    p := OnButton(c, WithFive(), Skip, EnvFor(1)).value;
  }

  lemma PickingFood(c: Conversation) returns (p: Pair)
    requires c.awaiting.Category? && c.active == Some(0)
    ensures Respond(c, Some(WithFive()), Press(0, PickCategory(FOOD)), 7, EnvFor(1)) == Edits(Accepted(p)) && p.draft == InReview()
    ensures p.conversation.active == Some(0)
  {
    p := OnButton(c, WithFive(), PickCategory(FOOD), EnvFor(1)).value;
  }

  lemma DraftWithAmount() returns (run: Run, t: Tables, c: Conversation)
    ensures IsRun(run) && run.steps == STEPS[..2] && t == run.states[2] && t.pending == map[]
    ensures Alone(t, c, WithFive(), {1, 2}) && c.awaiting.Merchant? && c.pending.None?
  {
    var t1, c1;
    run, t1, c1 := FirstDraft();
    var p := TypingFive(c1);
    Answered(t1, 2, FIVE_EUROS, EnvFor(1), c1, NewDraft(0), p, {1});
    t, c := UpdateStep(t1, 2, 7, FIVE_EUROS, EnvFor(1)), p.conversation;
    run := TakesStep(run, STEPS, 1, t1);
  }

  lemma MerchantSkipped() returns (run: Run, t: Tables, c: Conversation)
    ensures IsRun(run) && run.steps == STEPS[..3] && t == run.states[3] && t.pending == map[]
    ensures Alone(t, c, WithFive(), {1, 2, 3}) && c.awaiting.Category? && c.pending.None?
  {
    var t2, c2;
    run, t2, c2 := DraftWithAmount();
    var p := Skipping(c2);
    Answered(t2, 3, Press(0, Skip), EnvFor(1), c2, WithFive(), p, {1, 2});
    t, c := UpdateStep(t2, 3, 7, Press(0, Skip), EnvFor(1)), p.conversation;
    run := TakesStep(run, STEPS, 2, t2);
  }

  lemma DraftInReview() returns (run: Run, t: Tables, c: Conversation)
    ensures IsRun(run) && run.steps == STEPS[..4] && t == run.states[4] && t.pending == map[]
    ensures Alone(t, c, InReview(), {1, 2, 3, 4})
  {
    var t3, c3;
    run, t3, c3 := MerchantSkipped();
    var p := PickingFood(c3);
    Answered(t3, 4, Press(0, PickCategory(FOOD)), EnvFor(1), c3, WithFive(), p, {1, 2, 3});
    t, c := UpdateStep(t3, 4, 7, Press(0, PickCategory(FOOD)), EnvFor(1)), p.conversation;
    run := TakesStep(run, STEPS, 3, t3);
  }

  /** The draft is confirmed; its update's second commit has yet to come. */
  predicate HalfConfirmed(t: Tables) {
    && t.drafts.Keys == {0} && t.drafts[0].state.Confirmed? && t.drafts[0].owner == 7 && t.receipts == map[] && t.expenses.Keys == {1}
    && 7 in t.conversations && t.conversations[7].active == Some(0)
    && t.ledger.Keys == {1, 2, 3, 4, 5} && t.pending == map[5 := 7]
  }

  lemma ReviewedIsSaved() returns (expense: Expense, draft: Draft)
    ensures ConfirmOpen(InReview(), 7, EnvFor(1)) == Saves(expense, draft)
    ensures expense.id == 1 && draft.id == 0 && draft.owner == 7 && draft.state.Confirmed?
  {
    var saved := ConfirmOpen(InReview(), 7, EnvFor(1));
    expense, draft := saved.expense, saved.draft;
  }

  lemma FirstCommitWrites(t: Tables, c: Conversation, expense: Expense, draft: Draft)
    requires Alone(t, c, InReview(), {1, 2, 3, 4})
    requires ConfirmOpen(InReview(), 7, EnvFor(1)) == Saves(expense, draft) && draft.id == 0 && expense.id == 1
    ensures FirstCommitStep(t, 5, 7, 0, EnvFor(1))
         == t.(ledger := t.ledger[5 := 0], drafts := map[0 := draft], expenses := map[1 := expense])
  {
    assert ActiveDraft(t, 7, c) == Some(InReview());
  }

  lemma ConfirmingReleases(t: Tables, c: Conversation)
    requires Alone(t, c, InReview(), {1, 2, 3, 4}) && t.pending == map[]
    ensures HalfConfirmed(Next(t, FirstCommit(5, 7, 0, EnvFor(1))))
  {
    var expense, draft := ReviewedIsSaved();
    FirstCommitWrites(t, c, expense, draft);
  }

  lemma Confirmed() returns (run: Run, t: Tables)
    ensures IsRun(run) && run.steps == STEPS[..5] && t == run.states[5]
    ensures HalfConfirmed(t)
  {
    var t4, c4;
    run, t4, c4 := DraftInReview();
    t := Next(t4, FirstCommit(5, 7, 0, EnvFor(1)));
    ConfirmingReleases(t4, c4);
    run := TakesStep(run, STEPS, 4, t4);
  }

  lemma SecondDraft() returns (run: Run, t: Tables)
    ensures IsRun(run) && run.steps == STEPS[..6] && t == run.states[6]
    ensures t.drafts.Keys == {0, 2} && t.drafts[2] == NewDraft(2) && t.ledger.Keys == {1, 2, 3, 4, 5, 6}
    ensures t.receipts == map[] && t.expenses.Keys == {1} && t.pending == map[5 := 7]
  {
    var t5;
    run, t5 := Confirmed();
    AddingOpens(t5, 6, EnvFor(2), 2);
    t := UpdateStep(t5, 6, 7, Add, EnvFor(2));
    run := TakesStep(run, STEPS, 5, t5);
  }

  lemma Cleared() returns (run: Run, t: Tables)
    ensures IsRun(run) && run.steps == STEPS[..7] && t == run.states[7] && Disturbs(run.states[6], STEPS[6], 7)
    ensures t.drafts.Keys == {0, 2} && t.drafts[2] == NewDraft(2) && t.ledger.Keys == {1, 2, 3, 4, 5, 6}
    ensures t.receipts == map[] && t.expenses.Keys == {1} && 7 in t.conversations && t.conversations[7] == Idle(0)
  {
    var t6;
    run, t6 := SecondDraft();
    assert IsOpenChatDraft(t6, 7, 2);
    t := SecondCommitStep(t6, 5, 0);
    run := TakesStep(run, STEPS, 6, t6);
  }

  /** A second commit that comes after the user's next /add loses that draft from sight, and another /add opens a second one. */
  lemma ALateCommitCanLeaveTwoOpenDrafts() returns (run: Run)
    ensures IsRun(run) && run.steps == STEPS && forall a | a in STEPS :: !a.Unlink?
    ensures Disturbs(run.states[6], run.steps[6], 7)
    ensures IsOpenChatDraft(run.states[8], 7, 2) && IsOpenChatDraft(run.states[8], 7, 3)
  {
    var t7;
    run, t7 := Cleared();
    AddingOpens(t7, 7, EnvFor(3), 3);
    run := TakesStep(run, STEPS, 7, t7);
  }

  /** A user who unlinks and links again in between can have two open drafts. */
  lemma UnlinkingCanLeaveTwoOpenDrafts() returns (run: Run)
    ensures IsRun(run) && run.steps == [Update(1, 7, Add, EnvFor(0)), Unlink(7), Update(2, 7, Add, EnvFor(1))]
    ensures IsOpenChatDraft(run.states[3], 7, 0) && IsOpenChatDraft(run.states[3], 7, 1)
  {
    var t2;
    run, t2 := Unlinked();
    AddingOpens(t2, 2, EnvFor(1), 1);
    run := RunGoesOn(run, Update(2, 7, Add, EnvFor(1)), t2);
  }

  lemma Unlinked() returns (run: Run, t: Tables)
    ensures IsRun(run) && run.steps == [Update(1, 7, Add, EnvFor(0)), Unlink(7)] && t == run.states[2]
    ensures t.drafts == map[0 := NewDraft(0)] && t.conversations == map[] && t.ledger.Keys == {1} && t.receipts == map[] && t.expenses == map[]
  {
    AddingOpens(EMPTY, 1, EnvFor(0), 0);
    var t1 := UpdateStep(EMPTY, 1, 7, Add, EnvFor(0));
    run := RunGoesOn(Run(Empty, [EMPTY], []), Update(1, 7, Add, EnvFor(0)), EMPTY);
    t := t1.(conversations := t1.conversations - {7});
    run := RunGoesOn(run, Unlink(7), t1);
  }
}
