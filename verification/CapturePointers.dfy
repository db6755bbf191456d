/**
 How steps move the conversations: an open draft keeps its conversation's pointer, no pointer
 ever returns to an old draft, and the question asked about a draft only moves forward.
 */
module CapturePointers {
  import opened Wrappers
  import opened CaptureDraft
  import opened Conversations
  import opened CaptureFlow
  import opened CaptureFlowProofs
  import opened CaptureSystem
  import opened CaptureInvariants
  import opened CaptureSteps

  predicate PointsAt(t: Tables, user: Id, d: Id) {
    user in t.conversations && t.conversations[user].active == Some(d)
  }

  /** Answers a draft still needs; a draft nobody points at can get none. */
  function RankOf(t: Tables, d: Draft): nat {
    if PointsAt(t, d.owner, d.id) then Rank(t.conversations[d.owner], d) else 0
  }

  /** `a` delivers a usable answer to the question asked about draft `d`. */
  predicate Answers(t: Tables, a: Step, d: Id) {
    && a.Update? && a.update !in t.ledger
    && d in t.drafts && t.drafts[d].owner == a.user && PointsAt(t, a.user, d)
    && IsAnswer(t.conversations[a.user], t.drafts[d], a.input, a.env)
  }

  /** One user's pointer and question, before and after. */
  predicate Moves(t: Tables, t': Tables, d: Id)
    requires d in t.drafts && d in t'.drafts
  {
    var owner := t.drafts[d].owner;
    && (PointsAt(t', owner, d) ==> PointsAt(t, owner, d))
    && (PointsAt(t', owner, d) ==> Rank(t'.conversations[owner], t'.drafts[d]) <= Rank(t.conversations[owner], t.drafts[d]))
  }

  predicate Kept(t: Tables, t': Tables, d: Id)
    requires d in t.drafts && d in t'.drafts
  {
    PointsAt(t, t.drafts[d].owner, d) && Open(t'.drafts[d].state) ==> PointsAt(t', t.drafts[d].owner, d)
  }

  predicate NewIsPointedAt(t: Tables, t': Tables, d: Id)
    requires d in t'.drafts
  {
    d !in t.drafts && !t'.drafts[d].source.WebManual? ==> PointsAt(t', t'.drafts[d].owner, d)
  }

  /** What every step but unlinking does to the pointers. */
  ghost predicate PointersMove(t: Tables, t': Tables) {
    && (forall d | d in t.drafts :: d in t'.drafts && Moves(t, t', d))
    && (forall d | d in t'.drafts :: NewIsPointedAt(t, t', d))
  }

  ghost predicate PointersKept(t: Tables, t': Tables) {
    forall d | d in t.drafts :: d in t'.drafts && Kept(t, t', d)
  }

  // --- steps that leave conversations alone ---

  /** Conversations stay as they are; locking may add idle ones. */
  ghost predicate SameQuestions(t: Tables, t': Tables) {
    && t.conversations.Keys <= t'.conversations.Keys
    && forall u | u in t'.conversations ::
         if u in t.conversations then t'.conversations[u] == t.conversations[u] else t'.conversations[u].active.None?
  }

  lemma UntouchedConversations(t: Tables, t': Tables)
    requires Core(t) && SoundDrafts(t, t')
    requires SameQuestions(t, t')
    requires forall d | d in t'.drafts && d !in t.drafts :: t'.drafts[d].source.WebManual?
    ensures PointersMove(t, t') && PointersKept(t, t')
  {
    forall d | d in t.drafts ensures d in t'.drafts && Moves(t, t', d) && Kept(t, t', d) {
      var owner := t.drafts[d].owner;
      if PointsAt(t, owner, d) {
        RankUnderEvolution(t.conversations[owner], t.drafts[d], t'.drafts[d]);
      }
    }
  }

  /** With the same question asked, a draft's rank never rises; recognition ending leaves the amount to ask. */
  lemma RankUnderEvolution(c: Conversation, a: Draft, b: Draft)
    requires Evolves(a, b)
    ensures Rank(c, b) <= Rank(c, a)
  {
  }

  // --- a bot turn ---

  lemma TurnMovesActive(t: Tables, user: Id, c: Conversation, active: Draft, turn: Turn, env: Env, input: Input)
    requires Core(t) && FreshIds(t, env) && c == Lock(t, user, env.now) && Some(active) == ActiveDraft(t, user, c)
    requires Respond(c, Some(active), input, user, env) == Accepted(turn) && SoundTurn(c, Some(active), user, env, turn)
    ensures active.id in t.drafts && active.id in Write(t, user, turn).drafts
    ensures Moves(t, Write(t, user, turn), active.id) && Kept(t, Write(t, user, turn), active.id)
  {
    AnswersLowerRank(c, active, input, user, env);
  }

  lemma TurnMovesOther(t: Tables, user: Id, c: Conversation, active: Option<Draft>, turn: Turn, env: Env, d: Id)
    requires Core(t) && FreshIds(t, env) && c == Lock(t, user, env.now) && active == ActiveDraft(t, user, c)
    requires SoundTurn(c, active, user, env, turn)
    requires d in t.drafts && !(t.drafts[d].owner == user && active.Some? && active.value.id == d)
    ensures d in Write(t, user, turn).drafts && Moves(t, Write(t, user, turn), d) && Kept(t, Write(t, user, turn), d)
  {
  }

  lemma TurnMovesDraft(t: Tables, user: Id, active: Option<Draft>, turn: Turn, env: Env, input: Input, d: Id)
    requires Core(t) && FreshIds(t, env) && d in t.drafts
    requires active == ActiveDraft(t, user, Lock(t, user, env.now))
    requires Respond(Lock(t, user, env.now), active, input, user, env) == Accepted(turn)
    requires SoundTurn(Lock(t, user, env.now), active, user, env, turn)
    ensures d in Write(t, user, turn).drafts && Moves(t, Write(t, user, turn), d) && Kept(t, Write(t, user, turn), d)
  {
    if t.drafts[d].owner == user && active.Some? && active.value.id == d {
      TurnMovesActive(t, user, Lock(t, user, env.now), active.value, turn, env, input);
    } else {
      TurnMovesOther(t, user, Lock(t, user, env.now), active, turn, env, d);
    }
  }

  lemma TurnPointsAtNew(t: Tables, user: Id, active: Option<Draft>, turn: Turn, env: Env)
    requires Core(t) && FreshIds(t, env)
    requires active == ActiveDraft(t, user, Lock(t, user, env.now))
    requires SoundTurn(Lock(t, user, env.now), active, user, env, turn)
    ensures forall d | d in Write(t, user, turn).drafts :: NewIsPointedAt(t, Write(t, user, turn), d)
  {
  }

  lemma TurnMoves(t: Tables, user: Id, active: Option<Draft>, turn: Turn, env: Env, input: Input, now: Instant)
    requires Core(t) && FreshIds(t, env) && now == env.now
    requires active == ActiveDraft(t, user, Lock(t, user, now))
    requires Respond(Lock(t, user, now), active, input, user, env) == Accepted(turn)
    ensures PointersMove(t, Write(t, user, turn)) && PointersKept(t, Write(t, user, turn))
  {
    var c := Lock(t, user, now);
    LockedIsReady(t, user, now);
    RespondIsSound(c, active, input, user, env);
    forall d | d in t.drafts ensures d in Write(t, user, turn).drafts && Moves(t, Write(t, user, turn), d) && Kept(t, Write(t, user, turn), d) {
      TurnMovesDraft(t, user, active, turn, env, input, d);
    }
    TurnPointsAtNew(t, user, active, turn, env);
  }

  lemma AnswerIsAccepted(t: Tables, a: Step, d: Id)
    requires Core(t) && Answers(t, a, d)
    ensures ActiveDraft(t, a.user, Lock(t, a.user, a.env.now)) == Some(t.drafts[d])
    ensures Reply(t, a.user, a.input, a.env).Accepted?
  {
    var c := Lock(t, a.user, a.env.now);
    LockedIsReady(t, a.user, a.env.now);
    match a.input {
      case Text(typed) => TextIsSound(c, t.drafts[d], typed, a.user, a.env);
      case Press(id, action) => ButtonIsSound(c, t.drafts[d], action, a.user, a.env);
      case _ =>
    }
  }

  lemma AnswerLowers(t: Tables, a: Step, d: Id)
    requires Core(t) && Enabled(t, a) && Answers(t, a, d)
    ensures d in Next(t, a).drafts
    ensures RankOf(Next(t, a), Next(t, a).drafts[d]) < RankOf(t, t.drafts[d])
  {
    var c := Lock(t, a.user, a.env.now);
    LockedIsReady(t, a.user, a.env.now);
    AnswerIsAccepted(t, a, d);
    AnswersLowerRank(c, t.drafts[d], a.input, a.user, a.env);
    RespondIsSound(c, Some(t.drafts[d]), a.input, a.user, a.env);
  }

  lemma FirstCommitKeepsQuestions(t: Tables, update: int, user: Id, draft: Id, env: Env)
    requires Core(t)
    ensures var t' := FirstCommitStep(t, update, user, draft, env);
      SameQuestions(t, t') && t'.drafts.Keys == t.drafts.Keys
  {
    var c := Lock(t, user, env.now);
    var active := ActiveDraft(t, user, c);
    var r := Respond(c, active, Press(draft, ConfirmDraft), user, env);
    if r.Accepted? {
      LockedIsReady(t, user, env.now);
      RespondIsSound(c, active, Press(draft, ConfirmDraft), user, env);
    }
  }

  lemma SamePointersMove(t: Tables, t': Tables, t'': Tables)
    requires PointersMove(t, t') && PointersKept(t, t') && t''.drafts == t'.drafts && t''.conversations == t'.conversations
    ensures PointersMove(t, t'') && PointersKept(t, t'')
  {
    forall d | d in t.drafts ensures d in t''.drafts && Moves(t, t'', d) && Kept(t, t'', d) {
      assert Moves(t, t', d) && Kept(t, t', d);
    }
    forall d | d in t''.drafts ensures NewIsPointedAt(t, t'', d) {
      assert NewIsPointedAt(t, t', d);
    }
  }

  lemma BegunMoves(t: Tables, t': Tables, update: int, user: Id)
    requires Core(t) && Sound(t, t') && SameQuestions(t, t') && t'.drafts.Keys == t.drafts.Keys
    ensures PointersMove(t, Begun(t, t', update, user)) && PointersKept(t, Begun(t, t', update, user))
  {
    UntouchedConversations(t, t');
    SamePointersMove(t, t', Begun(t, t', update, user));
  }

  lemma FirstCommitMoves(t: Tables, update: int, user: Id, draft: Id, env: Env)
    requires Core(t) && FreshIds(t, env)
    ensures var t' := Next(t, FirstCommit(update, user, draft, env)); PointersMove(t, t') && PointersKept(t, t')
  {
    FirstCommitIsSound(t, update, user, draft, env);
    FirstCommitKeepsQuestions(t, update, user, draft, env);
    BegunMoves(t, FirstCommitStep(t, update, user, draft, env), update, user);
  }

  lemma UpdateMoves(t: Tables, update: int, user: Id, input: Input, env: Env)
    requires Core(t) && FreshIds(t, env)
    ensures var t' := UpdateStep(t, update, user, input, env); PointersMove(t, t') && PointersKept(t, t')
  {
    var r := Reply(t, user, input, env);
    if update in t.ledger || r.Rejected? {
      SelfMoves(t);
    } else {
      TurnMoves(t, user, ActiveDraft(t, user, Lock(t, user, env.now)), r.value, env, input, env.now);
      var w := Write(t, user, r.value);
      var t' := UpdateStep(t, update, user, input, env);
      assert t'.drafts == w.drafts && t'.conversations == w.conversations;
      forall d | d in t.drafts ensures d in t'.drafts && Moves(t, t', d) && Kept(t, t', d) {
        assert Moves(t, w, d) && Kept(t, w, d);
      }
      forall d | d in t'.drafts ensures NewIsPointedAt(t, t', d) {
        assert NewIsPointedAt(t, w, d);
      }
    }
  }

  /** A stale attempt, or an update already processed, moves nothing. */
  lemma SelfMoves(t: Tables)
    requires Core(t)
    ensures PointersMove(t, t) && PointersKept(t, t)
  {
    NothingIsSound(t);
    UntouchedConversations(t, t);
  }

  /** The two shapes of a finish that is not stale. */
  lemma FinishShape(t: Tables, id: Id, attempt: Id, output: Option<Values>, chat: bool, resultId: Id, now: Instant)
    requires HoldsAttempt(t, id, attempt)
    ensures var t' := FinishStep(t, id, attempt, output, chat, resultId, now);
      var owner := t.receipts[id].owner;
      var c := Lock(t, owner, now);
      var found := DraftOfReceipt(t, id);
      if found.None? || !Open(t.drafts[found.value].state) then
        t'.drafts == t.drafts && t'.conversations == t.conversations[owner := c]
      else
        var d := t.drafts[found.value];
        var p := Deliver(c, d, ResultOf(t.receipts[id], attempt, output, resultId), chat, now);
        p.Accepted? ==>
          t'.drafts == t.drafts[p.value.draft.id := p.value.draft] && t'.conversations == t.conversations[owner := p.value.conversation]
  {
  }

  lemma FinishMoves(t: Tables, id: Id, attempt: Id, output: Option<Values>, chat: bool, resultId: Id, now: Instant)
    requires Core(t) && resultId !in t.results && HoldsAttempt(t, id, attempt)
    requires SoundDrafts(t, FinishStep(t, id, attempt, output, chat, resultId, now))
    ensures var t' := FinishStep(t, id, attempt, output, chat, resultId, now); PointersMove(t, t') && PointersKept(t, t')
  {
    var t' := FinishStep(t, id, attempt, output, chat, resultId, now);
    var owner := t.receipts[id].owner;
    var c := Lock(t, owner, now);
    LockedIsReady(t, owner, now);
    FinishShape(t, id, attempt, output, chat, resultId, now);
    var found := DraftOfReceipt(t, id);
    if found.Some? && Open(t.drafts[found.value].state) {
      var d := t.drafts[found.value];
      DeliverIsSound(c, d, ResultOf(t.receipts[id], attempt, output, resultId), chat, now);
      DeliveryMoves(t, t', owner, c, d, Deliver(c, d, ResultOf(t.receipts[id], attempt, output, resultId), chat, now).value);
    } else {
      ClosedDraftMoves(t, t', owner, c);
    }
  }

  lemma ClosedDraftMoves(t: Tables, t': Tables, owner: Id, c: Conversation)
    requires Core(t) && SoundDrafts(t, t') && t'.drafts == t.drafts && t'.conversations == t.conversations[owner := c]
    requires if owner in t.conversations then t.conversations[owner] == c else c.active.None?
    ensures PointersMove(t, t') && PointersKept(t, t')
  {
    UntouchedConversations(t, t');
  }

  lemma DeliveryMoves(t: Tables, t': Tables, owner: Id, c: Conversation, d: Draft, p: Pair)
    requires Core(t) && SoundDrafts(t, t') && c == (if owner in t.conversations then t.conversations[owner] else c)
    requires owner !in t.conversations ==> c.active.None?
    requires d.id in t.drafts && t.drafts[d.id] == d && d.owner == owner
    requires p.conversation.active == c.active && (c.active != Some(d.id) ==> p.conversation == c)
    requires Rank(p.conversation, p.draft) <= Rank(c, d)
    requires t'.drafts == t.drafts[d.id := p.draft] && t'.conversations == t.conversations[owner := p.conversation]
    ensures PointersMove(t, t') && PointersKept(t, t')
  {
    forall k | k in t.drafts ensures k in t'.drafts && Moves(t, t', k) && Kept(t, t', k) {
      if PointsAt(t, t.drafts[k].owner, k) {
        RankUnderEvolution(t.conversations[t.drafts[k].owner], t.drafts[k], t'.drafts[k]);
      }
    }
  }

  lemma ExpiryMoves(t: Tables, batch: set<Id>, cutoff: Instant, now: Instant)
    requires Core(t)
    ensures var t' := ExpireStep(t, batch, cutoff, now); PointersMove(t, t') && PointersKept(t, t')
  {
    var t' := ExpireStep(t, batch, cutoff, now);
    ExpiryDrafts(t, batch, cutoff, now);
    forall k | k in t.drafts ensures k in t'.drafts && Moves(t, t', k) && Kept(t, t', k) {
      if PointsAt(t, t.drafts[k].owner, k) {
        RankUnderEvolution(t.conversations[t.drafts[k].owner], t.drafts[k], t'.drafts[k]);
      }
    }
  }

  lemma UnlinkMoves(t: Tables, user: Id)
    requires Core(t)
    ensures PointersMove(t, t.(conversations := t.conversations - {user}))
  {
    SelfMoves(t);
    var t' := t.(conversations := t.conversations - {user});
    forall k | k in t.drafts ensures k in t'.drafts && Moves(t, t', k) {
      assert Moves(t, t, k);
    }
  }

  lemma WebKeepsQuestions(t: Tables, user: Id, id: Id, change: Draft -> Result<Draft>)
    requires DraftsOk(t) && forall d :: change(d).Accepted? ==> change(d).value.id == d.id
    ensures var t' := WebStep(t, user, id, change); t'.conversations == t.conversations && t'.drafts.Keys == t.drafts.Keys
  {
  }

  lemma EditKeepsId(d: Draft, caller: Id, edit: DraftEdit, now: Instant)
    ensures EditAll(d, caller, edit, now).Accepted? ==> EditAll(d, caller, edit, now).value.id == d.id
  {
  }

  lemma ConfirmKeepsQuestions(t: Tables, user: Id, id: Id, env: Env)
    requires DraftsOk(t)
    ensures var t' := ConfirmOutcome(t, user, id, env).1; t'.conversations == t.conversations && t'.drafts.Keys == t.drafts.Keys
  {
  }

  lemma WebEditsKeepQuestions(t: Tables, a: Step)
    requires DraftsOk(t) && (a.WebEdit? || a.WebReady? || a.WebCancel? || a.WebConfirm?)
    ensures Next(t, a).conversations == t.conversations && Next(t, a).drafts.Keys == t.drafts.Keys
  {
    match a {
      case WebEdit(user, draft, edit, now) =>
        forall d | EditAll(d, user, edit, now).Accepted? ensures EditAll(d, user, edit, now).value.id == d.id {
          EditKeepsId(d, user, edit, now);
        }
        WebKeepsQuestions(t, user, draft, d => EditAll(d, user, edit, now));
      case WebReady(user, draft, now) => WebKeepsQuestions(t, user, draft, d => MarkReady(d, user, now));
      case WebCancel(user, draft, now) => WebKeepsQuestions(t, user, draft, d => CaptureDraft.Cancel(d, user, now));
      case WebConfirm(user, draft, env) => ConfirmKeepsQuestions(t, user, draft, env);
    }
  }

  lemma OtherMoves(t: Tables, a: Step)
    requires Core(t) && Enabled(t, a)
    requires !a.Update? && !a.FirstCommit? && !a.SecondCommit? && !a.FinishReceipt? && !a.ExpireDrafts? && !a.Unlink?
    ensures PointersMove(t, Next(t, a)) && PointersKept(t, Next(t, a))
  {
    StepIsSound(t, a);
    if a.WebEdit? || a.WebReady? || a.WebCancel? || a.WebConfirm? {
      WebEditsKeepQuestions(t, a);
    } else {
      RestKeepsQuestions(t, a);
    }
    UntouchedConversations(t, Next(t, a));
  }

  lemma RestKeepsQuestions(t: Tables, a: Step)
    requires a.OtherUpdate? || a.WebStart? || a.ClaimReceipt? || a.StoreImage? || a.ClaimNotices? || a.RemoveReceiptData? || a.PruneLedger? || a.SetExpenseDeleted?
    ensures SameQuestions(t, Next(t, a))
    ensures forall d | d in Next(t, a).drafts && d !in t.drafts :: Next(t, a).drafts[d].source.WebManual?
  {
    match a {
      case ClaimNotices(batch, now, before) => NoticesKeepQuestions(t, batch, now, before);
      case RemoveReceiptData(batch, cutoff, now) => RemovalKeepsQuestions(t, batch, cutoff, now);
      case WebStart(user, env) => StartKeepsQuestions(t, user, env);
      case _ => SameRowsKeepQuestions(t, Next(t, a));
    }
  }

  lemma StartKeepsQuestions(t: Tables, user: Id, env: Env)
    ensures var t' := WithDraft(t, Start(env.freshDraft, user, WebManual, env.now));
      SameQuestions(t, t') && forall d | d in t'.drafts && d !in t.drafts :: t'.drafts[d].source.WebManual?
  {
  }

  lemma SameRowsKeepQuestions(t: Tables, t': Tables)
    requires t'.conversations == t.conversations
    ensures SameQuestions(t, t')
  {
  }

  lemma NoticesKeepQuestions(t: Tables, batch: set<Id>, now: Instant, before: Instant)
    ensures SameQuestions(t, NoticeStep(t, batch, now, before)) && NoticeStep(t, batch, now, before).drafts == t.drafts
  {
  }

  lemma RemovalKeepsQuestions(t: Tables, batch: set<Id>, cutoff: Instant, now: Instant)
    ensures var t' := RemoveStep(t, batch, cutoff, now); SameQuestions(t, t') && t'.drafts.Keys == t.drafts.Keys
  {
  }

  lemma FinishStepMoves(t: Tables, id: Id, attempt: Id, output: Option<Values>, chat: bool, resultId: Id, now: Instant)
    requires Core(t) && resultId !in t.results
    ensures var t' := FinishStep(t, id, attempt, output, chat, resultId, now); PointersMove(t, t') && PointersKept(t, t')
  {
    if HoldsAttempt(t, id, attempt) {
      FinishIsSound(t, id, attempt, output, chat, resultId, now);
      FinishMoves(t, id, attempt, output, chat, resultId, now);
    } else {
      SelfMoves(t);
    }
  }

  /** Whose conversation a step makes forget its draft without closing the draft: an unlinking, or a late second commit. */
  function Forgets(t: Tables, a: Step): Option<Id> {
    match a
    case Unlink(user) => Some(user)
    case SecondCommit(update, _) => if update in t.pending then Some(t.pending[update]) else None
    case _ => None
  }

  lemma SecondCommitMoves(t: Tables, update: int, now: Instant)
    requires Core(t) && update in t.pending
    ensures var t' := SecondCommitStep(t, update, now);
      PointersMove(t, t') && forall d | d in t.drafts && t.drafts[d].owner != t.pending[update] :: d in t'.drafts && Kept(t, t', d)
  {
  }

  lemma UnlinkKeepsOthers(t: Tables, user: Id)
    requires Core(t)
    ensures var t' := t.(conversations := t.conversations - {user});
      forall d | d in t.drafts && t.drafts[d].owner != user :: d in t'.drafts && Kept(t, t', d)
  {
  }

  /** Every step leaves each user's pointer right, and only those steps leave a draft of that user without one. */
  lemma StepMoves(t: Tables, a: Step)
    requires Core(t) && Enabled(t, a)
    ensures PointersMove(t, Next(t, a))
    ensures forall d | d in t.drafts && Forgets(t, a) != Some(t.drafts[d].owner) :: d in Next(t, a).drafts && Kept(t, Next(t, a), d)
  {
    match a {
      case Update(update, user, input, env) => UpdateMoves(t, update, user, input, env);
      case FirstCommit(update, user, draft, env) => FirstCommitMoves(t, update, user, draft, env);
      case FinishReceipt(receipt, attempt, output, chat, resultId, now) => FinishStepMoves(t, receipt, attempt, output, chat, resultId, now);
      case ExpireDrafts(batch, cutoff, now) => ExpiryMoves(t, batch, cutoff, now);
      case Unlink(user) => UnlinkMoves(t, user); UnlinkKeepsOthers(t, user);
      case SecondCommit(update, now) => SecondCommitMoves(t, update, now);
      case _ => OtherMoves(t, a);
    }
  }
}
