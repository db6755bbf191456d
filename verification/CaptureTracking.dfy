/**
 One open chat draft per user. A user's open Telegram draft is the conversation's active draft, so
 there is only one, as long as no step makes the conversation forget it. Two kinds of step can: an
 unlinking, and the second commit of a confirmation when it comes after another update of the user.
 */
module CaptureTracking {
  import opened Wrappers
  import opened CaptureDraft
  import opened Conversations
  import opened CaptureFlow
  import opened CaptureFlowProofs
  import opened CaptureSystem
  import opened CaptureInvariants
  import opened CaptureSteps
  import opened CapturePointers
  import opened CaptureRuns

  predicate IsOpenChatDraft(t: Tables, u: Id, d: Id) {
    d in t.drafts && t.drafts[d].owner == u && Open(t.drafts[d].state) && !t.drafts[d].source.WebManual?
  }

  ghost predicate HasOpenChatDraft(t: Tables, u: Id) {
    exists d :: IsOpenChatDraft(t, u, d)
  }

  /** Every open Telegram draft of the user is the conversation's active draft; so there is at most one. */
  ghost predicate IsTracked(t: Tables, u: Id) {
    forall d | IsOpenChatDraft(t, u, d) :: PointsAt(t, u, d)
  }

  // --- one step ---

  /** The step makes the user's conversation forget a draft that is still open. */
  ghost predicate Disturbs(t: Tables, a: Step, u: Id) {
    Forgets(t, a) == Some(u) && HasOpenChatDraft(t, u)
  }

  lemma KeptIsTracked(t: Tables, t': Tables, u: Id)
    requires IsTracked(t, u) && SoundDrafts(t, t') && PointersMove(t, t')
    requires forall d | d in t.drafts && t.drafts[d].owner == u :: d in t'.drafts && Kept(t, t', d)
    ensures IsTracked(t', u)
  {
    forall d | IsOpenChatDraft(t', u, d) ensures PointsAt(t', u, d) {
      if d in t.drafts {
        assert Evolves(t.drafts[d], t'.drafts[d]) && Kept(t, t', d);
      } else {
        assert NewIsPointedAt(t, t', d);
      }
    }
  }

  lemma ForgettingTracksIff(t: Tables, a: Step, u: Id)
    requires Enabled(t, a) && Forgets(t, a) == Some(u)
    ensures IsTracked(Next(t, a), u) <==> !HasOpenChatDraft(t, u)
  {
    var t' := Next(t, a);
    assert t'.drafts == t.drafts && forall d :: !PointsAt(t', u, d);
    assert forall d :: IsOpenChatDraft(t', u, d) <==> IsOpenChatDraft(t, u, d);
  }

  /** A step of the bot, the web, a worker, retention or anyone else keeps a user tracked exactly when it does not disturb. */
  lemma StepKeepsTrackingIff(t: Tables, a: Step, u: Id)
    requires Core(t) && Enabled(t, a) && IsTracked(t, u)
    ensures IsTracked(Next(t, a), u) <==> !Disturbs(t, a, u)
  {
    if Forgets(t, a) == Some(u) {
      ForgettingTracksIff(t, a, u);
    } else {
      StepIsSound(t, a);
      StepMoves(t, a);
      KeptIsTracked(t, Next(t, a), u);
    }
  }

  /** Unlinking keeps a user tracked exactly when no Telegram draft of theirs is open. */
  lemma UnlinkKeepsTrackingIff(t: Tables, u: Id)
    requires Core(t) && IsTracked(t, u)
    ensures IsTracked(Next(t, Unlink(u)), u) <==>
      forall d | d in t.drafts && t.drafts[d].owner == u :: t.drafts[d].source.WebManual? || !Open(t.drafts[d].state)
  {
    ForgettingTracksIff(t, Unlink(u), u);
    assert HasOpenChatDraft(t, u) <==> exists d :: d in t.drafts && IsOpenChatDraft(t, u, d);
  }

  // --- whole runs ---

  /** Nothing has disturbed the user so far; what came before the deletion of their own account does not matter. */
  ghost predicate UndisturbedBefore(run: Run, n: nat, u: Id)
    requires IsRun(run) && n <= |run.steps|
  {
    && (forall i | 0 <= i < n :: !Disturbs(run.states[i], run.steps[i], u))
    && (run.origin.Deletion? && run.origin.user != u ==> UndisturbedBefore(run.origin.earlier, |run.origin.earlier.steps|, u))
  }

  lemma DeletionTracks(t: Tables, user: Id, u: Id)
    requires user != u ==> IsTracked(t, u)
    ensures IsTracked(WithoutAccount(t, user), u)
  {
    var t' := WithoutAccount(t, user);
    forall d | IsOpenChatDraft(t', u, d) ensures PointsAt(t', u, d) {
      assert user != u && IsOpenChatDraft(t, u, d) && PointsAt(t, u, d);
    }
  }

  lemma {:induction false} TrackedAlways(run: Run, n: nat, u: Id)
    requires IsRun(run) && n <= |run.steps| && UndisturbedBefore(run, n, u)
    ensures IsTracked(run.states[n], u)
  {
    if n > 0 {
      TrackedAlways(run, n - 1, u);
      CoreAlways(run, n - 1);
      assert Happens(run, n - 1);
      StepKeepsTrackingIff(run.states[n - 1], run.steps[n - 1], u);
    } else if run.origin.Deletion? {
      var earlier := run.origin.earlier;
      if run.origin.user != u {
        TrackedAlways(earlier, |earlier.steps|, u);
      }
      DeletionTracks(earlier.states[|earlier.steps|], run.origin.user, u);
    }
  }

  lemma TrackedIsUnique(t: Tables, u: Id, a: Id, b: Id)
    requires Core(t) && IsTracked(t, u) && IsOpenChatDraft(t, u, a) && IsOpenChatDraft(t, u, b)
    ensures a == b && PointsAt(t, u, a) && PairOk(t.conversations[u], t.drafts[a])
  {
    assert PointsAt(t, u, a) && PointsAt(t, u, b);
    assert ConversationOk(t, u, t.conversations[u]);
  }

  /**
   As long as the user neither unlinks with an open Telegram draft nor has one when a second commit
   comes late, that draft is unique and is the conversation's active draft, and the bot waits for what
   fits the draft's state. What other users do does not matter.
   */
  lemma OneOpenDraftPerUser(run: Run, n: nat, u: Id, a: Id, b: Id)
    requires IsRun(run) && n <= |run.steps| && UndisturbedBefore(run, n, u)
    requires IsOpenChatDraft(run.states[n], u, a) && IsOpenChatDraft(run.states[n], u, b)
    ensures a == b && PointsAt(run.states[n], u, a)
    ensures PairOk(run.states[n].conversations[u], run.states[n].drafts[a])
  {
    TrackedAlways(run, n, u);
    CoreAlways(run, n);
    TrackedIsUnique(run.states[n], u, a, b);
  }

  // --- the second commit of a confirmation ---

  /** The step taken commits a confirmation of `u` by this update, and has its second commit before it. */
  ghost predicate Begins(m: Moment, update: int, u: Id) {
    IsTaken(m) && Taken(m).FirstCommit? && Taken(m).update == update && Taken(m).user == u
    && update !in At(m).ledger && update in At(After(m)).ledger
  }

  lemma ConfirmingClosesTheDraft(t: Tables, update: int, u: Id, draft: Id, env: Env)
    requires Core(t) && IsTracked(t, u) && update !in t.ledger && update in FirstCommitStep(t, update, u, draft, env).ledger
    ensures var t' := FirstCommitStep(t, update, u, draft, env);
      t'.drafts.Keys == t.drafts.Keys && forall d :: !IsOpenChatDraft(t', u, d)
  {
    var c := Lock(t, u, env.now);
    var active := ActiveDraft(t, u, c);
    LockedIsReady(t, u, env.now);
    var turn := Reply(t, u, Press(draft, ConfirmDraft), env).value;
    RespondIsSound(c, active, Press(draft, ConfirmDraft), u, env);
    ConfirmingTurn(c, active, u, draft, env, turn);
    var t' := FirstCommitStep(t, update, u, draft, env);
    assert t'.drafts == t.drafts[active.value.id := turn.edited.value];
    ClosingTheActiveOne(t, t', u, active.value.id, turn.edited.value);
  }

  lemma ClosingTheActiveOne(t: Tables, t': Tables, u: Id, active: Id, closed: Draft)
    requires IsTracked(t, u) && PointsAt(t, u, active) && !Open(closed.state) && t'.drafts == t.drafts[active := closed]
    ensures forall d :: !IsOpenChatDraft(t', u, d)
  {
    forall d ensures !IsOpenChatDraft(t', u, d) {
      assert d != active ==> (IsOpenChatDraft(t', u, d) <==> IsOpenChatDraft(t, u, d));
      assert IsOpenChatDraft(t, u, d) ==> PointsAt(t, u, d);
    }
  }

  lemma ConfirmingTurn(c: Conversation, active: Option<Draft>, u: Id, draft: Id, env: Env, turn: Turn)
    requires Respond(c, active, Press(draft, ConfirmDraft), u, env) == Accepted(turn) && turn.expense.Some?
    requires SoundTurn(c, active, u, env, turn)
    ensures active.Some? && turn.started.None? && turn.edited.Some? && turn.edited.value.id == active.value.id && turn.edited.value.state.Confirmed?
  {
  }

  lemma BeginningClosesTheDraft(m: Moment, update: int, u: Id)
    requires Begins(m, update, u) && IsTracked(At(m), u)
    ensures forall d :: !IsOpenChatDraft(At(After(m)), u, d)
  {
    CoreAlways(m.run, m.n);
    assert Happens(m.run, m.n);
    FirstCommitClosesTheDraft(At(m), At(After(m)), Taken(m), update, u);
  }

  lemma FirstCommitClosesTheDraft(t: Tables, t'': Tables, a: Step, update: int, u: Id)
    requires Core(t) && IsTracked(t, u) && a.FirstCommit? && a.update == update && a.user == u && t'' == Next(t, a)
    requires update !in t.ledger && update in t''.ledger
    ensures forall d :: !IsOpenChatDraft(t'', u, d)
  {
    var t' := FirstCommitStep(t, update, u, a.draft, a.env);
    ConfirmingClosesTheDraft(t, update, u, a.draft, a.env);
    assert forall d :: IsOpenChatDraft(t', u, d) <==> IsOpenChatDraft(t'', u, d);
  }

  /** A Telegram draft of the user that is open now and was not theirs then. */
  ghost predicate WasOpenedSince(t: Tables, t': Tables, u: Id) {
    exists d :: IsOpenChatDraft(t', u, d) && !(d in t.drafts && t.drafts[d].owner == u)
  }

  /**
   The second commit of a confirmation disturbs exactly when a draft opened since the first commit is
   still open; so a second commit that comes before the user opens anything is harmless.
   */
  lemma LateCommitDisturbsIff(m: Moment, m': Moment, update: int, u: Id)
    requires Begins(m, update, u) && IsTracked(At(m), u)
    requires IsTaken(m') && Taken(m').SecondCommit? && Forgets(At(m'), Taken(m')) == Some(u)
    requires Follows(After(m), m', u)
    ensures Disturbs(At(m'), Taken(m'), u) <==> WasOpenedSince(At(After(m)), At(m'), u)
  {
    BeginningClosesTheDraft(m, update, u);
    MovesOn(After(m), m', u);
    CoreAlways(m'.run, m'.n);
    NothingReopens(At(After(m)), At(m'), u);
  }

  lemma NothingReopens(t: Tables, t': Tables, u: Id)
    requires DraftsLaterFor(t, t', u) && forall d :: !IsOpenChatDraft(t, u, d)
    ensures HasOpenChatDraft(t', u) <==> WasOpenedSince(t, t', u)
  {
    forall d | d in t.drafts && t.drafts[d].owner == u ensures !IsOpenChatDraft(t', u, d) {
      assert !IsOpenChatDraft(t, u, d) && d in t'.drafts && Evolves(t.drafts[d], t'.drafts[d]);
    }
  }
}
